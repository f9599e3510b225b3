/** Small value types shared by the node proxies, the text renderer and the effects. */
module Common {

  /** An optional value: `None` stands for a JavaScript `undefined`/`null` that the source tests with `??`. */
  datatype Option<+T> = None | Some(value: T) {
    function GetOr(default: T): T {
      match this
      case Some(v) => v
      case None => default
    }
  }

  /**
   * A JavaScript value of an object type that may also hold `undefined` or `null`
   * (an optional property that was left out arrives as `undefined`). Only `Ref`
   * is truthy, and `undefined` and `null` are not `===` to each other.
   */
  datatype JsRef<T> = Undefined | Null | Ref(obj: T)

  /** How an operation that may hit a fatal assertion ended. */
  datatype Outcome = Ok | Fatal(message: string)

  /** A string-keyed bag of values, as the source passes texture and shader properties around. */
  type PropertyBag = map<string, string>
}

/**
 * The two array operations the parent setters rely on: `Array.prototype.indexOf`
 * and `Array.prototype.splice(index, 1)`, plus the "no duplicates" property that
 * makes removing one occurrence remove the element altogether.
 */
module JsArray {

  /** `s.indexOf(x)`: the first index holding `x`, or -1 when there is none. */
  function IndexOf<T(==)>(s: seq<T>, x: T): (i: int)
    ensures -1 <= i < |s|
    ensures i == -1 <==> x !in s
    ensures 0 <= i ==> s[i] == x && x !in s[..i]
  {
    if s == [] then -1
    else if s[0] == x then 0
    else
      var j := IndexOf(s[1..], x);
      if j == -1 then -1
      else
        assert s[..j + 1] == [s[0]] + s[1..][..j];
        j + 1
  }

  /** `s.splice(i, 1)` on the array `s`: the array without its element at `i`. */
  function RemoveAt<T>(s: seq<T>, i: nat): (r: seq<T>)
    requires i < |s|
    ensures |r| == |s| - 1
    ensures forall k :: 0 <= k < i ==> r[k] == s[k]
    ensures forall k :: i <= k < |r| ==> r[k] == s[k + 1]
  {
    s[..i] + s[i + 1..]
  }

  /** The array after `s.splice(s.indexOf(x), 1)` for an `x` that is present. */
  function Without<T(==)>(s: seq<T>, x: T): (r: seq<T>)
    requires x in s
    ensures |r| == |s| - 1
  {
    RemoveAt(s, IndexOf(s, x))
  }

  /** `splice(i, 1)` removes one copy of the element at `i` and nothing else. */
  lemma RemoveAtMultiset<T>(s: seq<T>, i: nat)
    requires i < |s|
    ensures multiset(RemoveAt(s, i)) == multiset(s) - multiset{s[i]}
  {
    var front, back := s[..i], s[i + 1..];
    assert s == front + [s[i]] + back;
    assert RemoveAt(s, i) == front + back;
  }

  /**
   * What `Without` leaves: one `x` fewer, the elements before the first `x` in
   * place and those after it shifted down by one.
   */
  lemma WithoutRemovesFirst<T>(s: seq<T>, x: T)
    requires x in s
    ensures multiset(Without(s, x)) == multiset(s) - multiset{x}
    ensures forall k :: 0 <= k < IndexOf(s, x) ==> Without(s, x)[k] == s[k]
    ensures forall k :: IndexOf(s, x) <= k < |s| - 1 ==> Without(s, x)[k] == s[k + 1]
  {
    RemoveAtMultiset(s, IndexOf(s, x));
  }

  /** No element occurs twice. */
  predicate NoDup<T(==)>(s: seq<T>) {
    forall i, j :: 0 <= i < j < |s| ==> s[i] != s[j]
  }

  /** In a list without duplicates, removing the element at `i` removes exactly the value `s[i]`. */
  lemma RemoveAtNoDup<T>(s: seq<T>, i: nat)
    requires i < |s| && NoDup(s)
    ensures NoDup(RemoveAt(s, i))
    ensures forall x :: x in RemoveAt(s, i) <==> x in s && x != s[i]
  {
  }

  /** Appending an element that is not present keeps the list free of duplicates. */
  lemma AppendNoDup<T>(s: seq<T>, x: T)
    requires NoDup(s) && x !in s
    ensures NoDup(s + [x])
  {
  }

  /** In a list without duplicates, an element that is present occurs exactly once. */
  lemma {:induction false} NoDupOccursOnce<T>(s: seq<T>, x: T)
    requires NoDup(s)
    ensures multiset(s)[x] == if x in s then 1 else 0
  {
    if s != [] {
      assert s == [s[0]] + s[1..];
      assert NoDup(s[1..]) by {
        forall i, j | 0 <= i < j < |s[1..]| ensures s[1..][i] != s[1..][j] {
          assert s[1..][i] == s[i + 1] && s[1..][j] == s[j + 1];
        }
      }
      NoDupOccursOnce(s[1..], x);
      assert s[0] !in s[1..] by {
        forall k | 0 <= k < |s[1..]| ensures s[1..][k] != s[0] { assert s[1..][k] == s[k + 1]; }
      }
    }
  }
}

/**
 * Texture and shader descriptors. They are objects: the setters compare them by
 * reference, so two descriptors with equal contents are still different values.
 */
module Descriptors {
  import opened Common

  /** A `TextureDesc` made by `makeTexture(txType, props, options)`. */
  class TextureDesc {
    const txType: string
    const props: PropertyBag
    const options: Option<PropertyBag>

    constructor (txType: string, props: PropertyBag, options: Option<PropertyBag>)
      ensures this.txType == txType && this.props == props && this.options == options
    {
      this.txType := txType;
      this.props := props;
      this.options := options;
    }
  }

  /** A `ShaderDesc` made by `makeShader(shType, props)`. */
  class ShaderDesc {
    const shType: string
    const props: PropertyBag

    constructor (shType: string, props: PropertyBag)
      ensures this.shType == shType && this.props == props
    {
      this.shType := shType;
      this.props := props;
    }
  }

  /** The type tag the `src` setters ask for. */
  const ImageTextureType: string := "ImageTexture"

  /** The property bag `{ src: imageUrl }` the `src` setters pass to `makeTexture`. */
  function ImageTextureProps(imageUrl: string): (p: PropertyBag)
    ensures p.Keys == {"src"} && p["src"] == imageUrl
  {
    map["src" := imageUrl]
  }

  /**
   * `rendererMain.makeTexture('ImageTexture', { src: imageUrl })`: a new descriptor
   * each call, with no options.
   */
  method MakeImageTexture(imageUrl: string) returns (t: TextureDesc)
    ensures fresh(t)
    ensures t.txType == ImageTextureType && t.props == ImageTextureProps(imageUrl) && t.options == None
  {
    t := new TextureDesc(ImageTextureType, ImageTextureProps(imageUrl), None);
  }
}
