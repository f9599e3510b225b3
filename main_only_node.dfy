/**
 * The same-thread node proxy (`MainOnlyNode`): the process-wide id counter, the
 * locally kept parent/children tree, the `src`/`texture`/`shader` setters that
 * forward to the core node, and `destroy`.
 *
 * The core node is not modelled as an object: every call the proxy forwards to it,
 * and every event the proxy (an event emitter) emits or listener set it clears, is
 * appended to the node's `effects` log, in the order the source performs them.
 */
module MainOnly {
  import opened Common
  import opened Descriptors
  import JsArray

  /** The process-wide counter behind `getNewId` (`let nextId = 1`). */
  class IdCounter {
    var nextId: nat

    /** The counter as the module is loaded: the first id handed out is 1. */
    constructor ()
      ensures nextId == 1
    {
      nextId := 1;
    }

    /** `getNewId()`: hands out the current value and moves the counter one up (`nextId++`). */
    method GetNewId() returns (id: nat)
      modifies this
      ensures id == old(nextId)
      ensures nextId == id + 1
    {
      id := nextId;
      nextId := nextId + 1;
    }
  }

  /** Texture dimensions carried by a `txLoaded` event. */
  datatype Dimensions = Dimensions(width: real, height: real)

  /** Events a `MainOnlyNode` emits to its own listeners. */
  datatype NodeEvent =
    | BeforeDestroy
    | AfterDestroy
    | TxLoaded(dimensions: Dimensions)
    | TxFailed(error: string)

  /** One side effect of a node operation, in the order it happens. */
  datatype Effect =
    | CoreSetParent(parent: MainOnlyNode?)   // coreNode.parent = newParent?.coreNode ?? null
    | CoreLoadTexture(txType: string, props: PropertyBag, options: Option<PropertyBag>)
    | CoreUnloadTexture
    | CoreLoadShader(shType: string, props: PropertyBag)
    | Emit(event: NodeEvent)
    | RemoveAllListeners

  /**
   * The `INodeWritableProps` the constructor assigns through the setters. A left-out
   * `shader`, `texture` or `src` arrives as `undefined` (`Undefined`, `None`).
   */
  datatype NodeProps = NodeProps(parent: MainOnlyNode?, shader: JsRef<ShaderDesc>, texture: JsRef<TextureDesc>, src: Option<string>)

  /**
   * The core calls the constructor's shader, texture and src assignments make,
   * starting from the initial `null`, `null` and `''`; `texture` is the texture the
   * node ends up with.
   */
  function PropEffects(props: NodeProps, texture: JsRef<TextureDesc>): seq<Effect>
    requires !NoUrl(props.src) ==> texture.Ref?
  {
    (if props.shader.Ref? then [CoreLoadShader(props.shader.obj.shType, props.shader.obj.props)] else [])
    + (if props.texture.Ref? then [LoadTextureCall(props.texture.obj)]
       else if props.texture == Undefined then [CoreUnloadTexture] else [])
    + (if props.src == None && props.texture != Null then [CoreUnloadTexture]
       else if !NoUrl(props.src) then [LoadTextureCall(texture.obj)] else [])
  }

  /** `!imageUrl`: the URL is `undefined` or empty. */
  predicate NoUrl(imageUrl: Option<string>) {
    imageUrl == None || imageUrl == Some("")
  }

  /** The `loadTexture` call the texture setter forwards for a descriptor. */
  function LoadTextureCall(t: TextureDesc): Effect {
    CoreLoadTexture(t.txType, t.props, t.options)
  }

  /**
   * The tree invariant over a set of nodes: every parent and child of a node is in
   * the set, a node is in `n.children` exactly when its `parent` is `n`, and no
   * children list holds a node twice.
   */
  ghost predicate Consistent(nodes: set<MainOnlyNode>)
    reads nodes`parent, nodes`children
  {
    && (forall n :: n in nodes && n.parent != null ==> n.parent in nodes)
    && (forall n, c :: n in nodes && c in n.children ==> c in nodes)
    && (forall n, c :: n in nodes && c in nodes ==> (c in n.children <==> c.parent == n))
    && (forall n :: n in nodes ==> JsArray.NoDup(n.children))
  }

  class MainOnlyNode {
    const id: nat
    var parent: MainOnlyNode?
    var children: seq<MainOnlyNode>
    var src: Option<string>
    var texture: JsRef<TextureDesc>
    var shader: JsRef<ShaderDesc>
    /** Calls forwarded to the core node and events emitted, oldest first. */
    var effects: seq<Effect>

    /**
     * `new MainOnlyNode(props, rendererMain, stage, coreNode?)`: the id is the given
     * core node's id, or a fresh one from `getNewId`; then `parent`, `shader`,
     * `texture` and `src` are assigned through their setters, in that order.
     */
    constructor (props: NodeProps, counter: IdCounter, coreNodeId: Option<nat>)
      modifies counter, {props.parent}`children
      ensures coreNodeId.Some? ==> id == coreNodeId.value && counter.nextId == old(counter.nextId)
      ensures coreNodeId.None? ==> id == old(counter.nextId) && counter.nextId == old(counter.nextId) + 1
      ensures parent == props.parent && children == []
      ensures props.parent != null ==> props.parent.children == old(props.parent.children) + [this]
      ensures shader == props.shader && src == props.src
      ensures props.src == Some("") ==> texture == props.texture
      ensures props.src == None ==> texture == Null
      ensures !NoUrl(props.src) ==> texture.Ref? && fresh(texture.obj)
                                    && texture.obj.txType == ImageTextureType
                                    && texture.obj.props == ImageTextureProps(props.src.value)
      ensures effects == [CoreSetParent(props.parent)] + PropEffects(props, texture)
    {
      var newId: nat;
      if coreNodeId.Some? {
        newId := coreNodeId.value;
      } else {
        newId := counter.GetNewId();
      }
      id := newId;
      parent, children, src, texture, shader, effects := null, [], Some(""), Null, Null, [];
      new;
      var _ := SetParent(props.parent, {});
      AssignProps(props);
    }

    /**
     * The constructor's `this.shader = ...; this.texture = ...; this.src = ...`,
     * run on a node whose shader, texture and src still hold their initial values.
     */
    method AssignProps(props: NodeProps)
      requires shader == Null && texture == Null && src == Some("")
      modifies this`shader, this`texture, this`src, this`effects
      ensures shader == props.shader && src == props.src
      ensures props.src == Some("") ==> texture == props.texture
      ensures props.src == None ==> texture == Null
      ensures !NoUrl(props.src) ==> texture.Ref? && fresh(texture.obj)
                                    && texture.obj.txType == ImageTextureType
                                    && texture.obj.props == ImageTextureProps(props.src.value)
      ensures effects == old(effects) + PropEffects(props, texture)
    {
      SetShader(props.shader);
      SetTexture(props.texture);
      SetSrc(props.src);
    }

    /**
     * The `parent` setter. It records the new parent and tells the core node, then
     * removes this node from the old parent's children at the index `indexOf`
     * finds (a fatal assertion when it is not there, after the two assignments
     * have already happened), then appends it to the new parent's children.
     * On a consistent tree the assertion cannot fail and the tree stays consistent.
     */
    method SetParent(newParent: MainOnlyNode?, ghost nodes: set<MainOnlyNode>) returns (outcome: Outcome)
      modifies this`parent, this`effects, {parent, newParent}`children
      ensures parent == newParent
      ensures effects == old(effects) + [CoreSetParent(newParent)]
      ensures outcome.Fatal? <==> old(parent) != null && this !in old(parent.children)
      ensures outcome.Fatal? ==> old(parent) != null && old(parent).children == old(parent.children)
                                 && (newParent != null ==> newParent.children == old(newParent.children))
      ensures outcome.Ok? && old(parent) != null ==>
                old(parent).children == JsArray.Without(old(parent.children), this)
                                        + (if newParent == old(parent) then [this] else [])
      ensures outcome.Ok? && newParent != null && newParent != old(parent) ==>
                newParent.children == old(newParent.children) + [this]
      ensures old(Consistent(nodes)) && this in nodes && (newParent != null ==> newParent in nodes) ==>
                outcome.Ok? && Consistent(nodes)
    {
      var oldParent := parent;
      parent := newParent;
      effects := effects + [CoreSetParent(newParent)];
      if oldParent != null {
        var index := JsArray.IndexOf(oldParent.children, this);
        if index == -1 {
          return Fatal("MainOnlyNode.parent: Node not found in old parent's children!");
        }
        oldParent.children := JsArray.RemoveAt(oldParent.children, index);
      }
      if newParent != null {
        newParent.children := newParent.children + [this];
      }
      if old(Consistent(nodes)) && this in nodes && (newParent != null ==> newParent in nodes) {
        ReparentKeepsConsistent(Reparent(nodes, this, oldParent, newParent));
      }
      outcome := Ok;
    }

    /**
     * The `texture` setter: a strictly equal value changes nothing; otherwise the
     * value is stored and the core node is asked to load the descriptor, or to
     * unload its texture when the new value is `null` or `undefined`.
     */
    method SetTexture(t: JsRef<TextureDesc>)
      modifies this`texture, this`effects
      ensures texture == t
      ensures old(texture) == t ==> effects == old(effects)
      ensures old(texture) != t && t.Ref? ==> effects == old(effects) + [LoadTextureCall(t.obj)]
      ensures old(texture) != t && !t.Ref? ==> effects == old(effects) + [CoreUnloadTexture]
    {
      if texture == t {
        return;
      }
      texture := t;
      if t.Ref? {
        effects := effects + [LoadTextureCall(t.obj)];
      } else {
        effects := effects + [CoreUnloadTexture];
      }
    }

    /**
     * The `src` setter: the same URL changes nothing; an empty or `undefined` URL
     * sets the texture to `null`; any other URL installs a freshly made
     * `ImageTexture` descriptor, which the core node is then asked to load.
     */
    method SetSrc(imageUrl: Option<string>)
      modifies this`src, this`texture, this`effects
      ensures src == imageUrl
      ensures old(src) == imageUrl ==> texture == old(texture) && effects == old(effects)
      ensures old(src) != imageUrl && NoUrl(imageUrl) ==>
                texture == Null
                && effects == old(effects) + (if old(texture) != Null then [CoreUnloadTexture] else [])
      ensures old(src) != imageUrl && !NoUrl(imageUrl) ==>
                texture.Ref? && fresh(texture.obj)
                && texture.obj.txType == ImageTextureType && texture.obj.props == ImageTextureProps(imageUrl.value)
                && texture.obj.options == None
                && effects == old(effects) + [LoadTextureCall(texture.obj)]
    {
      if src == imageUrl {
        return;
      }
      src := imageUrl;
      if NoUrl(imageUrl) {
        SetTexture(Null);
        return;
      }
      var t := MakeImageTexture(imageUrl.value);
      SetTexture(Ref(t));
    }

    /**
     * The `shader` setter: a strictly equal value changes nothing; otherwise the
     * value is stored, and the core node loads it when it is a descriptor.
     */
    method SetShader(s: JsRef<ShaderDesc>)
      modifies this`shader, this`effects
      ensures shader == s
      ensures old(shader) == s || !s.Ref? ==> effects == old(effects)
      ensures old(shader) != s && s.Ref? ==> effects == old(effects) + [CoreLoadShader(s.obj.shType, s.obj.props)]
    {
      if shader == s {
        return;
      }
      shader := s;
      if s.Ref? {
        effects := effects + [CoreLoadShader(s.obj.shType, s.obj.props)];
      }
    }

    /** The core node's `txLoaded` event, re-emitted on the proxy. */
    method OnTextureLoaded(dimensions: Dimensions)
      modifies this`effects
      ensures effects == old(effects) + [Emit(TxLoaded(dimensions))]
    {
      effects := effects + [Emit(TxLoaded(dimensions))];
    }

    /** The core node's `txFailed` event, re-emitted on the proxy. */
    method OnTextureFailed(error: string)
      modifies this`effects
      ensures effects == old(effects) + [Emit(TxFailed(error))]
    {
      effects := effects + [Emit(TxFailed(error))];
    }

    /**
     * `destroy()`: emit `beforeDestroy`, detach (`parent = null`), emit
     * `afterDestroy`, drop every listener. A fatal detach stops it after the
     * detach. On a consistent tree it cannot fail, and afterwards the node is in
     * no children list.
     */
    method Destroy(ghost nodes: set<MainOnlyNode>) returns (outcome: Outcome)
      modifies this`parent, this`effects, {parent, null}`children
      ensures parent == null
      ensures outcome.Fatal? <==> old(parent) != null && this !in old(parent.children)
      ensures outcome.Ok? ==>
                effects == old(effects) + [Emit(BeforeDestroy), CoreSetParent(null), Emit(AfterDestroy), RemoveAllListeners]
      ensures outcome.Fatal? ==>
                effects == old(effects) + [Emit(BeforeDestroy), CoreSetParent(null)]
                && old(parent).children == old(parent.children)
      ensures outcome.Ok? && old(parent) != null ==>
                old(parent).children == JsArray.Without(old(parent.children), this)
      ensures old(Consistent(nodes)) && this in nodes ==>
                outcome.Ok? && Consistent(nodes) && forall n :: n in nodes ==> this !in n.children
    {
      effects := effects + [Emit(BeforeDestroy)];
      outcome := SetParent(null, nodes);
      if outcome.Fatal? {
        return;
      }
      effects := effects + [Emit(AfterDestroy), RemoveAllListeners];
    }
  }

  /** One run of the parent setter: `node` moves from `from` to `to`, within the tree `nodes`. */
  datatype ReparentStep = Reparent(nodes: set<MainOnlyNode>, node: MainOnlyNode, from: MainOnlyNode?, to: MainOnlyNode?)

  /**
   * The step the parent setter takes keeps a consistent tree consistent: `x`
   * leaves the children of its old parent `p` (one occurrence, at its index) and
   * is appended to the children of `q`; no other parent link or children list
   * changes.
   */
  twostate lemma ReparentKeepsConsistent(step: ReparentStep)
    requires var Reparent(nodes, x, p, q) := step;
      && old(Consistent(nodes)) && x in nodes && (q != null ==> q in nodes)
      && p == old(x.parent) && x.parent == q
      && (forall n :: n in nodes && n != x ==> n.parent == old(n.parent))
      && (forall n :: n in nodes && n != p && n != q ==> n.children == old(n.children))
      && (p != null ==> x in old(p.children))
      && (p != null && p != q ==>
            p.children == JsArray.Without(old(p.children), x))
      && (q != null && q != p ==> q.children == old(q.children) + [x])
      && (q != null && q == p ==>
            q.children == JsArray.Without(old(q.children), x) + [x])
    ensures Consistent(step.nodes)
  {
    var Reparent(nodes, x, p, q) := step;
    // What each children list in `nodes` holds now, in terms of what it held before.
    forall n | n in nodes
      ensures JsArray.NoDup(n.children)
      ensures forall c :: c in n.children <==> (c in old(n.children) && c != x) || (n == q && c == x)
    {
      var before := old(n.children);
      assert JsArray.NoDup(before);
      var kept := before;
      if n == p {
        JsArray.RemoveAtNoDup(before, JsArray.IndexOf(before, x));
        kept := JsArray.RemoveAt(before, JsArray.IndexOf(before, x));
      } else {
        assert x !in before;
      }
      assert forall c :: c in kept <==> c in before && c != x;
      if n == q {
        JsArray.AppendNoDup(kept, x);
        assert n.children == kept + [x];
      } else {
        assert n.children == kept;
      }
    }
  }

  /** In a consistent tree a node sits in exactly one children list, its parent's, and only once there. */
  lemma ChildHasOneParent(nodes: set<MainOnlyNode>, c: MainOnlyNode, p: MainOnlyNode, q: MainOnlyNode)
    requires Consistent(nodes) && p in nodes && q in nodes
    requires c in p.children && c in q.children
    ensures p == q && c.parent == p
    ensures multiset(p.children)[c] == 1
  {
    assert c in nodes;
    JsArray.NoDupOccursOnce(p.children, c);
  }

  /**
   * Assigning the current parent again: the children list the setter leaves has
   * the same length and the same elements, with the node moved to the end.
   */
  lemma ReattachMovesToEnd(children: seq<MainOnlyNode>, node: MainOnlyNode)
    requires node in children
    ensures var after := JsArray.Without(children, node) + [node];
      && |after| == |children|
      && after[|after| - 1] == node
      && multiset(after) == multiset(children)
  {
    var i := JsArray.IndexOf(children, node);
    assert children == children[..i] + [node] + children[i + 1..];
  }

  /** Scenario: B attached under A, then detached again. */
  method AttachThenDetach(counter: IdCounter)
    modifies counter
  {
    var a := new MainOnlyNode(NodeProps(null, Null, Null, Some("")), counter, None);
    var b := new MainOnlyNode(NodeProps(a, Null, Null, Some("")), counter, None);
    assert a.children == [b] && b.parent == a;
    assert Consistent({a, b});
    var outcome := b.SetParent(null, {a, b});
    assert outcome == Ok;
    assert a.children == [] && b.parent == null;
  }

  /** Scenario: the same image URL assigned twice loads one texture. */
  method SameSrcTwice(counter: IdCounter)
    modifies counter
  {
    var n := new MainOnlyNode(NodeProps(null, Null, Null, Some("")), counter, None);
    var before := n.effects;
    n.SetSrc(Some("img://1"));
    var t := n.texture;
    n.SetSrc(Some("img://1"));
    assert n.texture == t;
    assert n.effects == before + [LoadTextureCall(t.obj)];
  }

  /** Scenario: a node built with neither texture nor src asks the core node twice to unload its texture. */
  method BareNodeUnloadsTwice(counter: IdCounter)
    modifies counter
  {
    var n := new MainOnlyNode(NodeProps(null, Undefined, Undefined, None), counter, None);
    assert n.effects == [CoreSetParent(null), CoreUnloadTexture, CoreUnloadTexture];
    assert n.texture == Null;
  }
}
