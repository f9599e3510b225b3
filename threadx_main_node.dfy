/**
 * The worker-driver node proxy (`ThreadXMainNode`). It keeps the same local
 * parent/children tree and setter rules as the same-thread proxy, but instead of
 * calling a core node it emits command messages to the render worker, in order,
 * and it hands out per-node animation ids 1, 2, 3, ...
 *
 * The message stream is the node's `messages` log. The `FinalizationRegistry` is
 * the map `registry` of registrations whose release callback has not run yet, and
 * the callback itself is the explicit method `Finalize`.
 */
module ThreadX {
  import opened Common
  import opened Descriptors
  import JsArray

  /** The animated property values of one `animate` call (`Partial<INodeAnimatableProps>`). */
  type AnimatableProps = map<string, real>

  /** One value of `Partial<IAnimationSettings>` (duration, easing, loop, ...). */
  datatype SettingValue = Number(n: real) | Text(s: string) | Flag(b: bool)

  type AnimationSettings = map<string, SettingValue>

  /** The command messages a node sends to the render worker. */
  datatype Message =
    | LoadTexture(texture: TextureDesc)
    | UnloadTexture
    | LoadShader(shader: ShaderDesc)
    | CreateAnimation(id: nat, props: AnimatableProps, settings: AnimationSettings)
    | DestroyAnimation(id: nat)

  /** The ids of the `createAnimation` messages in a stream, in stream order. */
  function CreatedIds(log: seq<Message>): seq<nat> {
    if log == [] then []
    else (if log[0].CreateAnimation? then [log[0].id] else []) + CreatedIds(log[1..])
  }

  /** Appending one message adds its id to `CreatedIds` when it is a `createAnimation`, and nothing otherwise. */
  lemma {:induction false} CreatedIdsAppend(log: seq<Message>, m: Message)
    ensures CreatedIds(log + [m]) == CreatedIds(log) + (if m.CreateAnimation? then [m.id] else [])
  {
    if log == [] {
      assert [] + [m] == [m];
    } else {
      assert (log + [m])[1..] == log[1..] + [m];
      CreatedIdsAppend(log[1..], m);
    }
  }

  /** How many `destroyAnimation{id}` messages a stream holds for one id. */
  function DestroyCount(log: seq<Message>, id: nat): nat {
    multiset(log)[DestroyAnimation(id)]
  }

  /** Appending one message adds one to the count of exactly the id it destroys, if any. */
  lemma DestroyCountAppend(log: seq<Message>, m: Message)
    ensures forall k: nat :: DestroyCount(log + [m], k) == DestroyCount(log, k) + (if m == DestroyAnimation(k) then 1 else 0)
  {
  }

  /** The ids 1, 2, ..., n in order. */
  function IdsUpTo(n: nat): (ids: seq<nat>)
    ensures |ids| == n
    ensures forall i :: 0 <= i < n ==> ids[i] == i + 1
  {
    seq(n, i => i + 1)
  }

  /** Allocating one more id extends the sequence by that id. */
  lemma IdsUpToNext(n: nat)
    ensures IdsUpTo(n) + [n + 1] == IdsUpTo(n + 1)
  {
  }

  /**
   * The tree invariant over a set of nodes: parents and children stay in the set,
   * a node is in `n.children` exactly when its `parent` is `n`, no children list
   * holds a node twice. It is the same tree rule `MainOnly.Consistent` states for
   * the main-thread proxy.
   */
  ghost predicate Consistent(nodes: set<ThreadXMainNode>)
    reads nodes`parent, nodes`children
  {
    && (forall n :: n in nodes && n.parent != null ==> n.parent in nodes)
    && (forall n, c :: n in nodes && c in n.children ==> c in nodes)
    && (forall n, c :: n in nodes && c in nodes ==> (c in n.children <==> c.parent == n))
    && (forall n :: n in nodes ==> JsArray.NoDup(n.children))
  }

  /** A controller returned by `animate`: bound to its node and to the id allocated for it. */
  class AnimationController {
    const node: ThreadXMainNode
    const id: nat

    constructor (node: ThreadXMainNode, id: nat)
      ensures this.node == node && this.id == id
    {
      this.node := node;
      this.id := id;
    }
  }

  class ThreadXMainNode {
    /** The node's id, from its shared `NodeStruct`. */
    const id: nat
    /** The `parentId` field of the shared `NodeStruct`, the worker's view of the parent. */
    var parentId: nat
    var nextAnimationId: nat
    var parent: ThreadXMainNode?
    var children: seq<ThreadXMainNode>
    var texture: TextureDesc?
    var shader: ShaderDesc?
    var src: string
    /** The command messages emitted so far, oldest first. */
    var messages: seq<Message>
    /**
     * The live registrations of the `animationRegistry`, by held value: the id of
     * each controller whose release callback has not run yet.
     */
    var registry: map<nat, AnimationController>

    /**
     * The animation bookkeeping: the `createAnimation` messages carry the ids 1, 2,
     * ..., `nextAnimationId - 1` in order; each registration holds an allocated
     * id and the controller of this node bound to that id; and an allocated id has
     * had exactly one `destroyAnimation` once its registration is gone and none
     * before, while an id never allocated has none.
     */
    ghost predicate Valid()
      reads this
    {
      && nextAnimationId >= 1
      && CreatedIds(messages) == IdsUpTo(nextAnimationId - 1)
      && (forall k :: k in registry ==> 1 <= k < nextAnimationId && registry[k].id == k && registry[k].node == this)
      && (forall k: nat :: DestroyCount(messages, k) ==
                             if 1 <= k < nextAnimationId && k !in registry then 1 else 0)
    }

    /** A node over a shared struct with the given id and parent id: no parent, no children, nothing sent. */
    constructor (id: nat, parentId: nat)
      ensures Valid()
      ensures this.id == id && this.parentId == parentId
      ensures nextAnimationId == 1 && parent == null && children == []
      ensures texture == null && shader == null && src == ""
      ensures messages == [] && registry == map[]
    {
      this.id := id;
      this.parentId := parentId;
      nextAnimationId := 1;
      parent, children := null, [];
      texture, shader, src := null, null, "";
      messages, registry := [], map[];
    }

    /** Appending a message other than `createAnimation`/`destroyAnimation` keeps the bookkeeping valid. */
    method Send(m: Message)
      requires Valid()
      requires !m.CreateAnimation? && !m.DestroyAnimation?
      modifies this`messages
      ensures Valid()
      ensures messages == old(messages) + [m]
    {
      CreatedIdsAppend(messages, m);
      DestroyCountAppend(messages, m);
      messages := messages + [m];
    }

    /**
     * The `texture` setter: a reference-equal descriptor sends nothing; otherwise
     * the descriptor is stored and `loadTexture` carrying it is sent, or
     * `unloadTexture` when the new value is null.
     */
    method SetTexture(t: TextureDesc?)
      requires Valid()
      modifies this`texture, this`messages
      ensures Valid()
      ensures texture == t
      ensures old(texture) == t ==> messages == old(messages)
      ensures old(texture) != t && t != null ==> messages == old(messages) + [LoadTexture(t)]
      ensures old(texture) != t && t == null ==> messages == old(messages) + [UnloadTexture]
    {
      if texture == t {
        return;
      }
      texture := t;
      if t != null {
        Send(LoadTexture(t));
      } else {
        Send(UnloadTexture);
      }
    }

    /**
     * The `shader` setter: a reference-equal descriptor sends nothing; otherwise the
     * descriptor is stored and, unless it is null, `loadShader` carrying it is sent.
     */
    method SetShader(s: ShaderDesc?)
      requires Valid()
      modifies this`shader, this`messages
      ensures Valid()
      ensures shader == s
      ensures old(shader) == s || s == null ==> messages == old(messages)
      ensures old(shader) != s && s != null ==> messages == old(messages) + [LoadShader(s)]
    {
      if shader == s {
        return;
      }
      shader := s;
      if s != null {
        Send(LoadShader(s));
      }
    }

    /**
     * `animate(props, settings)`: takes the next animation id, sends
     * `createAnimation` with it, and returns a new controller bound to that id,
     * registered for release.
     */
    method Animate(props: AnimatableProps, settings: AnimationSettings) returns (controller: AnimationController)
      requires Valid()
      modifies this`nextAnimationId, this`messages, this`registry
      ensures Valid()
      ensures fresh(controller) && controller.node == this && controller.id == old(nextAnimationId)
      ensures nextAnimationId == old(nextAnimationId) + 1
      ensures messages == old(messages) + [CreateAnimation(controller.id, props, settings)]
      ensures registry == old(registry)[controller.id := controller]
    {
      var id := nextAnimationId;
      nextAnimationId := nextAnimationId + 1;
      CreatedIdsAppend(messages, CreateAnimation(id, props, settings));
      DestroyCountAppend(messages, CreateAnimation(id, props, settings));
      IdsUpToNext(id - 1);
      messages := messages + [CreateAnimation(id, props, settings)];
      controller := new AnimationController(this, id);
      registry := registry[id := controller];
    }

    /** Whether the registry still holds a registration for this controller. */
    predicate Registered(controller: AnimationController)
      reads this
    {
      controller.id in registry && registry[controller.id] == controller
    }

    /**
     * The `animationRegistry` callback for a controller: for a registered one, it
     * sends `destroyAnimation` with that controller's id and the controller leaves
     * the registry; for one already released (or never registered here), nothing
     * happens.
     */
    method Finalize(controller: AnimationController)
      requires Valid()
      modifies this`messages, this`registry
      ensures Valid()
      ensures !Registered(controller)
      ensures old(Registered(controller)) ==>
                registry == old(registry) - {controller.id}
                && messages == old(messages) + [DestroyAnimation(controller.id)]
      ensures !old(Registered(controller)) ==> registry == old(registry) && messages == old(messages)
    {
      if !Registered(controller) {
        return;
      }
      CreatedIdsAppend(messages, DestroyAnimation(controller.id));
      DestroyCountAppend(messages, DestroyAnimation(controller.id));
      messages := messages + [DestroyAnimation(controller.id)];
      registry := registry - {controller.id};
    }

    /**
     * The `src` setter: the same URL changes nothing; the empty URL clears the
     * texture; any other URL installs a freshly made `ImageTexture` descriptor,
     * which is sent in a `loadTexture`.
     */
    method SetSrc(imageUrl: string)
      requires Valid()
      modifies this`src, this`texture, this`messages
      ensures Valid()
      ensures src == imageUrl
      ensures old(src) == imageUrl ==> texture == old(texture) && messages == old(messages)
      ensures old(src) != imageUrl && imageUrl == "" ==>
                texture == null
                && messages == old(messages) + (if old(texture) != null then [UnloadTexture] else [])
      ensures old(src) != imageUrl && imageUrl != "" ==>
                texture != null && fresh(texture)
                && texture.txType == ImageTextureType && texture.props == ImageTextureProps(imageUrl)
                && texture.options == None
                && messages == old(messages) + [LoadTexture(texture)]
    {
      if src == imageUrl {
        return;
      }
      src := imageUrl;
      if imageUrl == "" {
        SetTexture(null);
        return;
      }
      var t := MakeImageTexture(imageUrl);
      SetTexture(t);
    }

    /**
     * The `parent` setter. It records the new parent and writes its id (0 for
     * none) to `parentId`, then removes this node from the old parent's children
     * at the index `indexOf` finds (a fatal assertion when it is not there, after
     * the two assignments), then appends it to the new parent's children. No
     * message is sent. On a consistent tree the assertion cannot fail and the tree
     * stays consistent.
     */
    method SetParent(newParent: ThreadXMainNode?, ghost nodes: set<ThreadXMainNode>) returns (outcome: Outcome)
      modifies this`parent, this`parentId, {parent, newParent}`children
      ensures parent == newParent
      ensures parentId == if newParent != null then newParent.id else 0
      ensures outcome.Fatal? <==> old(parent) != null && this !in old(parent.children)
      ensures outcome.Fatal? ==> old(parent) != null && old(parent).children == old(parent.children)
                                 && (newParent != null ==> newParent.children == old(newParent.children))
      ensures outcome.Ok? && old(parent) != null ==>
                old(parent).children == JsArray.Without(old(parent.children), this)
                                        + (if newParent == old(parent) then [this] else [])
      ensures outcome.Ok? && newParent != null && newParent != old(parent) ==>
                newParent.children == old(newParent.children) + [this]
      ensures old(Consistent(nodes)) && this in nodes && (newParent != null ==> newParent in nodes) ==>
                outcome.Ok? && Consistent(nodes)
    {
      var oldParent := parent;
      parent := newParent;
      parentId := if newParent != null then newParent.id else 0;
      if oldParent != null {
        var index := JsArray.IndexOf(oldParent.children, this);
        if index == -1 {
          return Fatal("ThreadXMainNode.parent: Node not found in old parent's children!");
        }
        oldParent.children := JsArray.RemoveAt(oldParent.children, index);
      }
      if newParent != null {
        newParent.children := newParent.children + [this];
      }
      if old(Consistent(nodes)) && this in nodes && (newParent != null ==> newParent in nodes) {
        ReparentKeepsConsistent(Reparent(nodes, this, oldParent, newParent));
      }
      outcome := Ok;
    }
  }

  /** One run of the parent setter: `node` moves from `from` to `to`, within the tree `nodes`. */
  datatype ReparentStep = Reparent(nodes: set<ThreadXMainNode>, node: ThreadXMainNode, from: ThreadXMainNode?, to: ThreadXMainNode?)

  /**
   * The step the parent setter takes keeps a consistent tree consistent: the node
   * leaves the children of its old parent (one occurrence, at its index) and is
   * appended to the children of the new one; no other parent link or children
   * list changes.
   */
  twostate lemma ReparentKeepsConsistent(step: ReparentStep)
    requires var Reparent(nodes, x, p, q) := step;
      && old(Consistent(nodes)) && x in nodes && (q != null ==> q in nodes)
      && p == old(x.parent) && x.parent == q
      && (forall n :: n in nodes && n != x ==> n.parent == old(n.parent))
      && (forall n :: n in nodes && n != p && n != q ==> n.children == old(n.children))
      && (p != null ==> x in old(p.children))
      && (p != null && p != q ==>
            p.children == JsArray.Without(old(p.children), x))
      && (q != null && q != p ==> q.children == old(q.children) + [x])
      && (q != null && q == p ==>
            q.children == JsArray.Without(old(q.children), x) + [x])
    ensures Consistent(step.nodes)
  {
    var Reparent(nodes, x, p, q) := step;
    forall n | n in nodes
      ensures JsArray.NoDup(n.children)
      ensures forall c :: c in n.children <==> (c in old(n.children) && c != x) || (n == q && c == x)
    {
      var before := old(n.children);
      assert JsArray.NoDup(before);
      var kept := before;
      if n == p {
        JsArray.RemoveAtNoDup(before, JsArray.IndexOf(before, x));
        kept := JsArray.RemoveAt(before, JsArray.IndexOf(before, x));
      } else {
        assert x !in before;
      }
      assert forall c :: c in kept <==> c in before && c != x;
      if n == q {
        JsArray.AppendNoDup(kept, x);
        assert n.children == kept + [x];
      } else {
        assert n.children == kept;
      }
    }
  }

  /**
   * On a valid node the animation ids sent so far are 1, 2, ... in order, and no
   * id, allocated or not, has had more than one `destroyAnimation`.
   */
  lemma DestroyAtMostOnce(node: ThreadXMainNode, k: nat)
    requires node.Valid()
    ensures DestroyCount(node.messages, k) <= 1
    ensures k >= node.nextAnimationId || k == 0 ==> DestroyCount(node.messages, k) == 0
    ensures forall i :: 0 <= i < |CreatedIds(node.messages)| ==> CreatedIds(node.messages)[i] == i + 1
  {
  }

  /** Two `animate` calls then both controllers released: ids 1 and 2, each destroyed once. */
  method AnimateTwiceThenRelease()
  {
    var node := new ThreadXMainNode(7, 0);
    var c1 := node.Animate(map["x" := 100.0], map["duration" := Number(500.0)]);
    var c2 := node.Animate(map["x" := 100.0], map["duration" := Number(500.0)]);
    assert c1.id == 1 && c2.id == 2;
    assert node.messages == [CreateAnimation(1, map["x" := 100.0], map["duration" := Number(500.0)]),
                             CreateAnimation(2, map["x" := 100.0], map["duration" := Number(500.0)])];
    node.Finalize(c2);
    node.Finalize(c1);
    node.Finalize(c1);
    assert DestroyCount(node.messages, 1) == 1 && DestroyCount(node.messages, 2) == 1;
  }
}
