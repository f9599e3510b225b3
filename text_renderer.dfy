/**
 * The text renderer's shared machinery: the per-text state it updates in place,
 * the status machine that reports loading progress to the state's emitter, the
 * table of default property setters, and how a concrete renderer's own setters
 * are merged over those defaults.
 */
module TextRendering {
  import opened Common

  /** `TextRendererState['status']`. */
  datatype Status = InitialState | Loading | Loaded | Failed

  /** The event name `setStatus` emits: the status as the source spells it. */
  function StatusName(s: Status): (name: string)
  {
    match s
    case InitialState => "initialState"
    case Loading => "loading"
    case Loaded => "loaded"
    case Failed => "failed"
  }

  /** One `emitter.emit(name, error)` call. */
  datatype StatusEvent = StatusEvent(name: string, error: Option<string>)

  /** The state's event emitter, reduced to the events emitted on it, in order. */
  class Emitter {
    var emitted: seq<StatusEvent>

    constructor ()
      ensures emitted == []
    {
      emitted := [];
    }
  }

  /** `TrFontProps['fontWeight']`: a numeric weight or a keyword such as `'bold'`. */
  datatype FontWeight = WeightNumber(n: real) | WeightKeyword(keyword: string)

  /**
   * `TrProps`. Numbers are reals; the string-literal unions (`textAlign`,
   * `contain`, the font style and stretch keywords) are strings; `debug` is the
   * partial record of debug flags, keyed by flag name.
   */
  datatype TrProps = TrProps(
    fontFamily: string,
    fontWeight: FontWeight,
    fontStyle: string,
    fontStretch: string,
    fontSize: real,
    text: string,
    textAlign: string,
    color: real,
    alpha: real,
    x: real,
    y: real,
    contain: string,
    width: real,
    height: real,
    scrollable: bool,
    scrollY: real,
    offsetY: real,
    letterSpacing: real,
    zIndex: real,
    debug: map<string, bool>)

  /** `keyof TrProps`. */
  datatype PropKey =
    | X | Y | Width | Height | Color | Alpha | ZIndex
    | FontFamily | FontWeight | FontStyle | FontStretch | FontSize
    | Text | TextAlign | Contain | OffsetY | Scrollable | ScrollY | LetterSpacing | Debug

  /** A value of some `TrProps[key]`. */
  datatype PropValue =
    | Num(n: real)
    | Str(s: string)
    | Flag(b: bool)
    | Weight(w: FontWeight)
    | DebugFlags(flags: map<string, bool>)

  /** `value` has the type `TrProps[key]`, as the setter for `key` requires. */
  predicate Fits(key: PropKey, value: PropValue) {
    match key
    case FontFamily | FontStyle | FontStretch | Text | TextAlign | Contain => value.Str?
    case FontWeight => value.Weight?
    case Scrollable => value.Flag?
    case Debug => value.DebugFlags?
    case _ => value.Num?
  }

  /** `props[key]`. */
  function Get(props: TrProps, key: PropKey): (v: PropValue)
    ensures Fits(key, v)
  {
    match key
    case X => Num(props.x)
    case Y => Num(props.y)
    case Width => Num(props.width)
    case Height => Num(props.height)
    case Color => Num(props.color)
    case Alpha => Num(props.alpha)
    case ZIndex => Num(props.zIndex)
    case FontFamily => Str(props.fontFamily)
    case FontWeight => Weight(props.fontWeight)
    case FontStyle => Str(props.fontStyle)
    case FontStretch => Str(props.fontStretch)
    case FontSize => Num(props.fontSize)
    case Text => Str(props.text)
    case TextAlign => Str(props.textAlign)
    case Contain => Str(props.contain)
    case OffsetY => Num(props.offsetY)
    case Scrollable => Flag(props.scrollable)
    case ScrollY => Num(props.scrollY)
    case LetterSpacing => Num(props.letterSpacing)
    case Debug => DebugFlags(props.debug)
  }

  /** `props[key] = value`: the field named `key` takes `value` and no other field changes. */
  function SetProp(props: TrProps, key: PropKey, value: PropValue): (r: TrProps)
    requires Fits(key, value)
    ensures Get(r, key) == value
    ensures forall k :: k != key ==> Get(r, k) == Get(props, k)
  {
    match key
    case X => props.(x := value.n)
    case Y => props.(y := value.n)
    case Width => props.(width := value.n)
    case Height => props.(height := value.n)
    case Color => props.(color := value.n)
    case Alpha => props.(alpha := value.n)
    case ZIndex => props.(zIndex := value.n)
    case FontFamily => props.(fontFamily := value.s)
    case FontWeight => props.(fontWeight := value.w)
    case FontStyle => props.(fontStyle := value.s)
    case FontStretch => props.(fontStretch := value.s)
    case FontSize => props.(fontSize := value.n)
    case Text => props.(text := value.s)
    case TextAlign => props.(textAlign := value.s)
    case Contain => props.(contain := value.s)
    case OffsetY => props.(offsetY := value.n)
    case Scrollable => props.(scrollable := value.b)
    case ScrollY => props.(scrollY := value.n)
    case LetterSpacing => props.(letterSpacing := value.n)
    case Debug => props.(debug := value.flags)
  }

  /** Two property records that agree on every key are the same record. */
  lemma PropsExtensional(p: TrProps, q: TrProps)
    requires forall k :: Get(p, k) == Get(q, k)
    ensures p == q
  {
    assert p.x == q.x by { assert Get(p, X) == Get(q, X); }
    assert p.y == q.y by { assert Get(p, Y) == Get(q, Y); }
    assert p.width == q.width by { assert Get(p, Width) == Get(q, Width); }
    assert p.height == q.height by { assert Get(p, Height) == Get(q, Height); }
    assert p.color == q.color by { assert Get(p, Color) == Get(q, Color); }
    assert p.alpha == q.alpha by { assert Get(p, Alpha) == Get(q, Alpha); }
    assert p.zIndex == q.zIndex by { assert Get(p, ZIndex) == Get(q, ZIndex); }
    assert p.fontFamily == q.fontFamily by { assert Get(p, FontFamily) == Get(q, FontFamily); }
    assert p.fontWeight == q.fontWeight by { assert Get(p, FontWeight) == Get(q, FontWeight); }
    assert p.fontStyle == q.fontStyle by { assert Get(p, FontStyle) == Get(q, FontStyle); }
    assert p.fontStretch == q.fontStretch by { assert Get(p, FontStretch) == Get(q, FontStretch); }
    assert p.fontSize == q.fontSize by { assert Get(p, FontSize) == Get(q, FontSize); }
    assert p.text == q.text by { assert Get(p, Text) == Get(q, Text); }
    assert p.textAlign == q.textAlign by { assert Get(p, TextAlign) == Get(q, TextAlign); }
    assert p.contain == q.contain by { assert Get(p, Contain) == Get(q, Contain); }
    assert p.offsetY == q.offsetY by { assert Get(p, OffsetY) == Get(q, OffsetY); }
    assert p.scrollable == q.scrollable by { assert Get(p, Scrollable) == Get(q, Scrollable); }
    assert p.scrollY == q.scrollY by { assert Get(p, ScrollY) == Get(q, ScrollY); }
    assert p.letterSpacing == q.letterSpacing by { assert Get(p, LetterSpacing) == Get(q, LetterSpacing); }
    assert p.debug == q.debug by { assert Get(p, Debug) == Get(q, Debug); }
  }

  /** Setters for different keys touch different fields, so their order does not matter. */
  lemma SetPropCommutes(p: TrProps, k1: PropKey, v1: PropValue, k2: PropKey, v2: PropValue)
    requires k1 != k2 && Fits(k1, v1) && Fits(k2, v2)
    ensures SetProp(SetProp(p, k1, v1), k2, v2) == SetProp(SetProp(p, k2, v2), k1, v1)
  {
    PropsExtensional(SetProp(SetProp(p, k1, v1), k2, v2), SetProp(SetProp(p, k2, v2), k1, v1));
  }

  /** Setting a key twice keeps only the second value. */
  lemma SetPropOverwrites(p: TrProps, k: PropKey, v1: PropValue, v2: PropValue)
    requires Fits(k, v1) && Fits(k, v2)
    ensures SetProp(SetProp(p, k, v1), k, v2) == SetProp(p, k, v2)
  {
  }

  /** Setting a key to the value it already has leaves the record as it was. */
  lemma SetPropCurrentValue(p: TrProps, k: PropKey)
    ensures SetProp(p, k, Get(p, k)) == p
  {
  }

  /**
   * `TextRendererState`, reduced to the parts the shared code touches: the props
   * the setters write, the status, and the emitter the status changes go to.
   */
  class TextRendererState {
    var props: TrProps
    var status: Status
    const emitter: Emitter

    constructor (props: TrProps, emitter: Emitter)
      ensures this.props == props && this.status == InitialState && this.emitter == emitter
    {
      this.props := props;
      this.status := InitialState;
      this.emitter := emitter;
    }
  }

  /**
   * The events `setStatus(state, status, error)` emits when the state's status is
   * `current`: none when the status is unchanged, otherwise one event named by the
   * new status and carrying the error.
   */
  function StatusEvents(current: Status, status: Status, error: Option<string>): (events: seq<StatusEvent>)
    ensures |events| <= 1
    ensures events == [] <==> current == status
    ensures events != [] ==> events[0].name == StatusName(status) && events[0].error == error
  {
    if current == status then [] else [StatusEvent(StatusName(status), error)]
  }

  /** Two calls in a row with the same status emit at most one event between them. */
  lemma SetStatusTwiceEmitsOnce(current: Status, status: Status, e1: Option<string>, e2: Option<string>)
    ensures StatusEvents(status, status, e2) == []
    ensures |StatusEvents(current, status, e1) + StatusEvents(status, status, e2)| <= 1
  {
  }

  /** How an entry of the `set` table updates the state. */
  datatype Setter =
    | /** A default setter: `state.props[field] = value`. */
      AssignProp(field: PropKey)
    | /** A setter supplied by a concrete renderer, identified by its name. */
      RendererSetter(name: string)

  /**
   * `trPropSetterDefaults`, entry by entry in the source's order: every key has a
   * setter, and each one assigns its value to the key's own prop.
   */
  function DefaultSetters(): (table: map<PropKey, Setter>)
    ensures forall k :: k in table && table[k] == AssignProp(k)
  {
    var table := map[
      X := AssignProp(X),
      Y := AssignProp(Y),
      Width := AssignProp(Width),
      Height := AssignProp(Height),
      Color := AssignProp(Color),
      Alpha := AssignProp(Alpha),
      ZIndex := AssignProp(ZIndex),
      FontFamily := AssignProp(FontFamily),
      FontWeight := AssignProp(FontWeight),
      FontStyle := AssignProp(FontStyle),
      FontStretch := AssignProp(FontStretch),
      FontSize := AssignProp(FontSize),
      Text := AssignProp(Text),
      TextAlign := AssignProp(TextAlign),
      Contain := AssignProp(Contain),
      OffsetY := AssignProp(OffsetY),
      Scrollable := AssignProp(Scrollable),
      ScrollY := AssignProp(ScrollY),
      LetterSpacing := AssignProp(LetterSpacing),
      Debug := AssignProp(Debug)
    ];
    assert forall k :: k in table && table[k] == AssignProp(k) by {
      forall k ensures k in table && table[k] == AssignProp(k) {
        if k.X? {} else if k.Y? {} else if k.Width? {} else if k.Height? {}
        else if k.Color? {} else if k.Alpha? {} else if k.ZIndex? {}
        else if k.FontFamily? {} else if k.FontWeight? {} else if k.FontStyle? {}
        else if k.FontStretch? {} else if k.FontSize? {} else if k.Text? {}
        else if k.TextAlign? {} else if k.Contain? {} else if k.OffsetY? {}
        else if k.Scrollable? {} else if k.ScrollY? {} else if k.LetterSpacing? {}
        else {}
      }
    }
    table
  }

  /**
   * `{ ...trPropSetterDefaults, ...overrides }`: every key has a setter; a key the
   * renderer supplies takes the renderer's, every other key keeps the default.
   */
  function MergeSetters(overrides: map<PropKey, Setter>): (table: map<PropKey, Setter>)
    ensures forall k :: k in table
    ensures forall k :: k in overrides ==> table[k] == overrides[k]
    ensures forall k :: k !in overrides ==> table[k] == AssignProp(k)
  {
    DefaultSetters() + overrides
  }

  /**
   * A default setter run on a state: `trPropSetterDefaults[key](state, value)`,
   * looked up in the table and applied. Only `state.props[key]` changes; the
   * status and the emitter are untouched.
   */
  method RunDefaultSetter(state: TextRendererState, key: PropKey, value: PropValue)
    requires Fits(key, value)
    modifies state`props
    ensures state.props == SetProp(old(state.props), key, value)
    ensures state.status == old(state.status)
  {
    match DefaultSetters()[key]
    case AssignProp(field) => state.props := SetProp(state.props, field, value);
    case RendererSetter(_) => assert false;
  }

  /** The shared part of a text renderer: its frozen `set` table. */
  class TextRenderer {
    /** The source's `set`: frozen once built, hence a `const`. */
    const setters: map<PropKey, Setter>

    /** Builds `set` from the defaults and what `getPropertySetters()` returned. */
    constructor (overrides: map<PropKey, Setter>)
      ensures setters == MergeSetters(overrides)
    {
      setters := MergeSetters(overrides);
    }

    /**
     * `setStatus(state, status, error)`: a repeated status is ignored; a new one is
     * stored and announced on the state's emitter.
     */
    method SetStatus(state: TextRendererState, status: Status, error: Option<string>)
      modifies state`status, state.emitter`emitted
      ensures state.status == status
      ensures state.emitter.emitted == old(state.emitter.emitted) + StatusEvents(old(state.status), status, error)
    {
      if state.status == status {
        return;
      }
      state.status := status;
      state.emitter.emitted := state.emitter.emitted + [StatusEvent(StatusName(status), error)];
    }
  }
}
