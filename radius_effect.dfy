/**
 * The rounded-corner effect's host-side logic: normalising the `radius` uniform
 * to one value per corner, filling in the default radius, and the effect's key.
 */
module Radius {
  import Common

  /**
   * One element of the array handed to the `uniform4fv` upload. Reading past the
   * end of a JavaScript array yields `undefined`, which `Undefined` stands for.
   */
  datatype Slot = Defined(value: real) | Undefined

  /** `number | number[]`, the type of the `radius` property. */
  datatype RadiusValue = Number(r: real) | List(items: seq<real>)

  /** `RadiusEffect.name`. */
  const EffectName: string := "radius"

  /** The radius `resolveDefaults` fills in when none is given. */
  const DefaultRadius: real := 10.0

  /** The real values a radius mentions. */
  function Values(v: RadiusValue): (vals: seq<real>)
    ensures v.Number? ==> vals == [v.r]
    ensures v.List? ==> vals == v.items
  {
    match v
    case Number(r) => [r]
    case List(items) => items
  }

  /**
   * The `uniforms.radius.validator`: four corner radii. A number is used for all
   * four corners. A list of one to four values is repeated from its start until
   * four corners are filled, so `[a, b]` gives `[a, b, a, b]` and `[a, b, c]` gives
   * `[a, b, c, a]`. A longer list gives four copies of its first value, and an empty
   * list four `undefined` values.
   */
  function Normalize(v: RadiusValue): (corners: seq<Slot>)
    ensures |corners| == 4
    ensures v.Number? ==> forall i :: 0 <= i < 4 ==> corners[i] == Defined(v.r)
    ensures v.List? && 1 <= |v.items| <= 4 ==>
      forall i :: 0 <= i < 4 ==> corners[i] == Defined(v.items[i % |v.items|])
    ensures v.List? && |v.items| > 4 ==> forall i :: 0 <= i < 4 ==> corners[i] == Defined(v.items[0])
    ensures v.List? && v.items == [] ==> forall i :: 0 <= i < 4 ==> corners[i] == Undefined
    ensures (forall i :: 0 <= i < 4 ==> corners[i].Defined?) <==> Values(v) != []
  {
    match v
    case List(r) =>
      if |r| == 2 then [Defined(r[0]), Defined(r[1]), Defined(r[0]), Defined(r[1])]
      else if |r| == 3 then [Defined(r[0]), Defined(r[1]), Defined(r[2]), Defined(r[0])]
      else if |r| != 4 then
        var first := if |r| == 0 then Undefined else Defined(r[0]);
        var filled := [first, first, first, first];
        assert filled[0] == first;
        filled
      else [Defined(r[0]), Defined(r[1]), Defined(r[2]), Defined(r[3])]
    case Number(r) => [Defined(r), Defined(r), Defined(r), Defined(r)]
  }

  /** Every defined corner is one of the input's values. */
  lemma NormalizeTakesInputValues(v: RadiusValue)
    ensures forall i :: 0 <= i < 4 && Normalize(v)[i].Defined? ==> Normalize(v)[i].value in Values(v)
  {
  }

  /** The four corner values of a normalised radius, as a list. */
  function CornerValues(corners: seq<Slot>): (vals: seq<real>)
    requires forall i :: 0 <= i < |corners| ==> corners[i].Defined?
    ensures |vals| == |corners|
    ensures forall i :: 0 <= i < |corners| ==> corners[i] == Defined(vals[i])
  {
    seq(|corners|, i requires 0 <= i < |corners| => corners[i].value)
  }

  /** Normalising the corners of a normalised radius again changes nothing. */
  lemma NormalizeIdempotent(v: RadiusValue)
    requires Values(v) != []
    ensures Normalize(List(CornerValues(Normalize(v)))) == Normalize(v)
  {
    var corners := Normalize(v);
    var again := Normalize(List(CornerValues(corners)));
    assert forall i :: 0 <= i < 4 ==> again[i] == corners[i] by {
      forall i | 0 <= i < 4 ensures again[i] == corners[i] {
        assert i % 4 == i;
      }
    }
  }

  /** `RadiusEffectProps`: the radius may be left out. */
  datatype RadiusEffectProps = RadiusEffectProps(radius: Common.Option<RadiusValue>)

  /** `Required<RadiusEffectProps>`. */
  datatype ResolvedRadiusProps = ResolvedRadiusProps(radius: RadiusValue)

  /** `resolveDefaults`: a given radius is kept, a missing one becomes 10. */
  function ResolveDefaults(props: RadiusEffectProps): (resolved: ResolvedRadiusProps)
    ensures props.radius.Some? ==> resolved.radius == props.radius.value
    ensures props.radius.None? ==> resolved.radius == Number(DefaultRadius)
  {
    ResolvedRadiusProps(props.radius.GetOr(Number(DefaultRadius)))
  }

  /** With no radius given, every corner is rounded by 10. */
  lemma DefaultRadiusCorners()
    ensures forall i :: 0 <= i < 4 ==>
      Normalize(ResolveDefaults(RadiusEffectProps(Common.None)).radius)[i] == Defined(DefaultRadius)
  {
  }

  /** `getEffectKey`: the effect is keyed by its own name. */
  function EffectKey(): (key: string)
    ensures key == EffectName
  {
    "radius"
  }
}
