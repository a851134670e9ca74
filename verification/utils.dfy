/**
 * The generic helpers of UtilityFunctionsJP.cs: the IsBetween range test, the
 * vector extensions (InRange and componentwise min/max), the order-preserving
 * filters that remove non-matching items from a cloned list, and the walk up a
 * transform's parent chain.
 *
 * The three overloads of ApplyTagMask and of GetChildrenOf differ only in how
 * an element reaches its transform; here that is a function parameter.
 */
module Utils {
  import opened Mathf

  /** IsBetween: `val` is above `min` and below `max`, each end included when its flag says so. */
  function IsBetween(val: real, min: real, max: real, includeMinValue: bool := true, includeMaxValue: bool := true): (r: bool)
    ensures r <==> ((if includeMinValue then min <= val else min < val) &&
                    (if includeMaxValue then val <= max else val < max))
  {
    (val < max || (val == max && includeMaxValue)) && (val > min || (val == min && includeMinValue))
  }

  /** With both ends included, a value is between the bounds exactly when clamping leaves it alone. */
  lemma IsBetweenIffClampFixes(val: real, min: real, max: real)
    requires min <= max
    ensures IsBetween(val, min, max) <==> Clamp(val, min, max) == val
  {
  }

  datatype Vector2 = Vector2(x: real, y: real)
  {
    /** InRange: every component between the bounds; `includeMinValues` governs both ends, `includeMaxValues` nothing. */
    function InRange(min: Vector2, max: Vector2, includeMinValues: bool := true, includeMaxValues: bool := true): (r: bool)
      ensures includeMinValues ==> (r <==> min.x <= x <= max.x && min.y <= y <= max.y)
      ensures !includeMinValues ==> (r <==> min.x < x < max.x && min.y < y < max.y)
    {
      IsBetween(x, min.x, max.x, includeMinValues, includeMinValues)
      && IsBetween(y, min.y, max.y, includeMinValues, includeMinValues)
    }

    /** GetMinComponents: each component is the smaller of the two vectors' components. */
    function GetMinComponents(other: Vector2): (r: Vector2)
      ensures r.x <= x && r.x <= other.x && (r.x == x || r.x == other.x)
      ensures r.y <= y && r.y <= other.y && (r.y == y || r.y == other.y)
    {
      Vector2(Min(x, other.x), Min(y, other.y))
    }

    /** GetMaxComponents: each component is the larger of the two vectors' components. */
    function GetMaxComponents(other: Vector2): (r: Vector2)
      ensures x <= r.x && other.x <= r.x && (r.x == x || r.x == other.x)
      ensures y <= r.y && other.y <= r.y && (r.y == y || r.y == other.y)
    {
      Vector2(Max(x, other.x), Max(y, other.y))
    }
  }

  datatype Vector3 = Vector3(x: real, y: real, z: real)
  {
    /** InRange: every component between the bounds; `includeMinValues` governs both ends, `includeMaxValues` nothing. */
    function InRange(min: Vector3, max: Vector3, includeMinValues: bool := true, includeMaxValues: bool := true): (r: bool)
      ensures includeMinValues ==> (r <==> min.x <= x <= max.x && min.y <= y <= max.y && min.z <= z <= max.z)
      ensures !includeMinValues ==> (r <==> min.x < x < max.x && min.y < y < max.y && min.z < z < max.z)
    {
      IsBetween(x, min.x, max.x, includeMinValues, includeMinValues)
      && IsBetween(y, min.y, max.y, includeMinValues, includeMinValues)
      && IsBetween(z, min.z, max.z, includeMinValues, includeMinValues)
    }

    /** GetMinComponents: each component is the smaller of the two vectors' components. */
    function GetMinComponents(other: Vector3): (r: Vector3)
      ensures r.x <= x && r.x <= other.x && (r.x == x || r.x == other.x)
      ensures r.y <= y && r.y <= other.y && (r.y == y || r.y == other.y)
      ensures r.z <= z && r.z <= other.z && (r.z == z || r.z == other.z)
    {
      Vector3(Min(x, other.x), Min(y, other.y), Min(z, other.z))
    }

    /** GetMaxComponents: each component is the larger of the two vectors' components. */
    function GetMaxComponents(other: Vector3): (r: Vector3)
      ensures x <= r.x && other.x <= r.x && (r.x == x || r.x == other.x)
      ensures y <= r.y && other.y <= r.y && (r.y == y || r.y == other.y)
      ensures z <= r.z && other.z <= r.z && (r.z == z || r.z == other.z)
    {
      Vector3(Max(x, other.x), Max(y, other.y), Max(z, other.z))
    }
  }

  datatype Vector4 = Vector4(x: real, y: real, z: real, w: real)
  {
    /** InRange: every component between the bounds; `includeMinValues` governs both ends, `includeMaxValues` nothing. */
    function InRange(min: Vector4, max: Vector4, includeMinValues: bool := true, includeMaxValues: bool := true): (r: bool)
      ensures includeMinValues ==> (r <==> min.x <= x <= max.x && min.y <= y <= max.y && min.z <= z <= max.z && min.w <= w <= max.w)
      ensures !includeMinValues ==> (r <==> min.x < x < max.x && min.y < y < max.y && min.z < z < max.z && min.w < w < max.w)
    {
      IsBetween(x, min.x, max.x, includeMinValues, includeMinValues)
      && IsBetween(y, min.y, max.y, includeMinValues, includeMinValues)
      && IsBetween(z, min.z, max.z, includeMinValues, includeMinValues)
      && IsBetween(w, min.w, max.w, includeMinValues, includeMinValues)
    }

    /** GetMinComponents: each component is the smaller of the two vectors' components. */
    function GetMinComponents(other: Vector4): (r: Vector4)
      ensures r.x <= x && r.x <= other.x && (r.x == x || r.x == other.x)
      ensures r.y <= y && r.y <= other.y && (r.y == y || r.y == other.y)
      ensures r.z <= z && r.z <= other.z && (r.z == z || r.z == other.z)
      ensures r.w <= w && r.w <= other.w && (r.w == w || r.w == other.w)
    {
      Vector4(Min(x, other.x), Min(y, other.y), Min(z, other.z), Min(w, other.w))
    }

    /** GetMaxComponents: each component is the larger of the two vectors' components. */
    function GetMaxComponents(other: Vector4): (r: Vector4)
      ensures x <= r.x && other.x <= r.x && (r.x == x || r.x == other.x)
      ensures y <= r.y && other.y <= r.y && (r.y == y || r.y == other.y)
      ensures z <= r.z && other.z <= r.z && (r.z == z || r.z == other.z)
      ensures w <= r.w && other.w <= r.w && (r.w == w || r.w == other.w)
    {
      Vector4(Max(x, other.x), Max(y, other.y), Max(z, other.z), Max(w, other.w))
    }
  }

  /** Both vectors lie in the box spanned by their componentwise minimum and maximum, ends included. */
  lemma BoxContainsBoth(v: Vector3, other: Vector3)
    ensures v.InRange(v.GetMinComponents(other), v.GetMaxComponents(other))
    ensures other.InRange(v.GetMinComponents(other), v.GetMaxComponents(other))
  {
  }

  /** The elements of `s` that `keep` accepts, in their original order. */
  function Filter<E>(s: seq<E>, keep: E -> bool): (r: seq<E>)
    ensures |r| <= |s|
    ensures forall i :: 0 <= i < |r| ==> keep(r[i])
  {
    if |s| == 0 then []
    else Filter(s[..|s| - 1], keep) + (if keep(s[|s| - 1]) then [s[|s| - 1]] else [])
  }

  /** An element is in the filtered list exactly when it is in the input and accepted. */
  lemma {:induction false} FilterMembership<E>(s: seq<E>, keep: E -> bool, e: E)
    ensures e in Filter(s, keep) <==> e in s && keep(e)
  {
    if |s| > 0 {
      FilterMembership(s[..|s| - 1], keep, e);
      assert s == s[..|s| - 1] + [s[|s| - 1]];
    }
  }

  /** Filtering distributes over concatenation, so the kept elements keep their relative order. */
  lemma {:induction false} FilterAppend<E>(a: seq<E>, b: seq<E>, keep: E -> bool)
    ensures Filter(a + b, keep) == Filter(a, keep) + Filter(b, keep)
  {
    if |b| == 0 {
      assert a + b == a;
    } else {
      var init := b[..|b| - 1];
      FilterAppend(a, init, keep);
      assert (a + b)[..|a + b| - 1] == a + init;
    }
  }

  /** An input the predicate accepts throughout passes unchanged. */
  lemma {:induction false} FilterAll<E>(s: seq<E>, keep: E -> bool)
    requires forall i :: 0 <= i < |s| ==> keep(s[i])
    ensures Filter(s, keep) == s
  {
    if |s| > 0 {
      FilterAll(s[..|s| - 1], keep);
    }
  }

  /** Whether `tag` is one of the mask's strings: the inner search of ApplyTagMask. */
  predicate InMask(tagMask: seq<string>, tag: string) {
    tag in tagMask
  }

  /**
   * ApplyTagMask: removes from a clone of the collection every element whose tag
   * is not in the mask, and returns what remains. The collection itself is not
   * modified.
   */
  method ApplyTagMask<E>(collection: array<E>, tagMask: seq<string>, tagOf: E -> string) returns (r: seq<E>)
    ensures r == Filter(collection[..], e => InMask(tagMask, tagOf(e)))
  {
    ghost var keep := e => InMask(tagMask, tagOf(e));
    ghost var input := collection[..];
    var collectionClone := collection[..];
    var i := 0;
    ghost var j := 0;
    while i < |collectionClone|
      invariant 0 <= i <= |collectionClone| && 0 <= j <= |input|
      invariant collectionClone[..i] == Filter(input[..j], keep)
      invariant collectionClone[i..] == input[j..]
      decreases |collectionClone| - i
    {
      var t := collectionClone[i];
      assert t == input[j];
      assert input[..j + 1][..j] == input[..j];
      var matched := false;
      var k := 0;
      while k < |tagMask|
        invariant 0 <= k <= |tagMask|
        invariant matched <==> tagOf(t) in tagMask[..k]
      {
        if tagOf(t) == tagMask[k] {
          matched := true;
          break;
        }
        k := k + 1;
      }
      assert matched <==> InMask(tagMask, tagOf(t)) by {
        if !matched { assert tagMask[..k] == tagMask; }
      }
      if !matched {
        collectionClone := collectionClone[..i] + collectionClone[i + 1..];
      } else {
        i := i + 1;
      }
      j := j + 1;
    }
    assert input[..j] == input;
    r := collectionClone;
  }

  /** With an empty mask nothing passes. */
  lemma {:induction false} EmptyMaskKeepsNothing<E>(s: seq<E>, tagOf: E -> string)
    ensures Filter(s, e => InMask([], tagOf(e))) == []
  {
    if |s| > 0 {
      EmptyMaskKeepsNothing(s[..|s| - 1], tagOf);
    }
  }

  /**
   * A transform hierarchy: each transform's parent, if it has one. `depth` is a
   * ranking that decreases toward the root, so the parent chain is acyclic.
   */
  datatype Hierarchy<T(==)> = Hierarchy(parent: map<T, T>, depth: map<T, nat>)
  {
    ghost predicate Valid() {
      forall n :: n in parent ==> n in depth && parent[n] in depth && depth[parent[n]] < depth[n]
    }

    function Rank(n: T): nat {
      if n in depth then depth[n] else 0
    }

    /** Transform.IsChildOf: `t` is `p` itself or lies anywhere below it. */
    function IsChildOf(t: T, p: T): bool
      requires Valid()
      decreases Rank(t)
    {
      t == p || (t in parent && IsChildOf(parent[t], p))
    }
  }

  /** Every transform is a child of itself, and a child of its parent's ancestors. */
  lemma ParentAncestorsAreAncestors<T>(h: Hierarchy<T>, t: T, p: T)
    requires h.Valid() && t in h.parent
    ensures h.IsChildOf(t, t)
    ensures h.IsChildOf(h.parent[t], p) ==> h.IsChildOf(t, p)
  {
  }

  /**
   * GetChildrenOf: removes from a clone of the collection every element whose
   * transform is not `parent` or one of its descendants, and returns what remains.
   */
  method GetChildrenOf<E, T>(h: Hierarchy<T>, parent: T, collection: array<E>, transformOf: E -> T) returns (r: seq<E>)
    requires h.Valid()
    ensures r == Filter(collection[..], e => h.Valid() && h.IsChildOf(transformOf(e), parent))
  {
    ghost var keep := e => h.Valid() && h.IsChildOf(transformOf(e), parent);
    ghost var input := collection[..];
    var collectionClone := collection[..];
    var i := 0;
    ghost var j := 0;
    while i < |collectionClone|
      invariant 0 <= i <= |collectionClone| && 0 <= j <= |input|
      invariant collectionClone[..i] == Filter(input[..j], keep)
      invariant collectionClone[i..] == input[j..]
      decreases |collectionClone| - i
    {
      var t := transformOf(collectionClone[i]);
      assert collectionClone[i] == input[j];
      assert input[..j + 1][..j] == input[..j];
      var matched := h.IsChildOf(t, parent);
      if !matched {
        collectionClone := collectionClone[..i] + collectionClone[i + 1..];
      } else {
        i := i + 1;
      }
      j := j + 1;
    }
    assert input[..j] == input;
    r := collectionClone;
  }

  /** GetTopLevelParent: climbs the parent chain to a transform with no parent, which is an ancestor-or-self of `t`. */
  method GetTopLevelParent<T>(h: Hierarchy<T>, t: T) returns (top: T)
    requires h.Valid()
    ensures top !in h.parent
    ensures h.IsChildOf(t, top)
  {
    top := t;
    while top in h.parent
      invariant forall a :: h.IsChildOf(top, a) ==> h.IsChildOf(t, a)
      decreases h.Rank(top)
    {
      top := h.parent[top];
    }
  }
}
