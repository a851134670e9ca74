/**
 * The array helpers of SightLineOptimizer.cs: the shared, reusable RaycastHit
 * buffer and its resize rule, the in-place sort of the first `hits` entries by
 * distance from a point, and the search for the first hit whose tag is not
 * ignored.
 *
 * Hits are compared by squared distance: Vector3.Distance is the square root
 * of it, and the root is increasing, so both orders agree.
 */
module SightLine {
  import opened Utils

  /** The parts of a RaycastHit the helpers read: where it hit and the tag of the transform hit. */
  datatype RaycastHit = RaycastHit(point: Vector3, tag: string)

  /** default(RaycastHit). */
  const DefaultHit: RaycastHit := RaycastHit(Vector3(0.0, 0.0, 0.0), "")

  /** The initial number of buffered hits. */
  const InitialAllocation: int := 16

  function SquaredDistance(a: Vector3, b: Vector3): real {
    (a.x - b.x) * (a.x - b.x) + (a.y - b.y) * (a.y - b.y) + (a.z - b.z) * (a.z - b.z)
  }

  /** The sort key of a hit: its squared distance from `point`. */
  function Key(h: RaycastHit, point: Vector3): real {
    SquaredDistance(h.point, point)
  }

  /** Ascending distance from `point`. */
  ghost predicate SortedByDistance(s: seq<RaycastHit>, point: Vector3) {
    forall p, q :: 0 <= p < q < |s| ==> Key(s[p], point) <= Key(s[q], point)
  }

  /** `s` with the entries at i and i + 1 exchanged. */
  function Swap(s: seq<RaycastHit>, i: nat): (r: seq<RaycastHit>)
    requires i + 1 < |s|
    ensures |r| == |s| && r[i] == s[i + 1] && r[i + 1] == s[i]
    ensures forall k :: 0 <= k < |s| && k != i && k != i + 1 ==> r[k] == s[k]
    ensures multiset(r) == multiset(s)
  {
    s[i := s[i + 1]][i + 1 := s[i]]
  }

  /** How many entries of `t` are strictly closer to `point` than `x`. */
  function CountCloser(x: RaycastHit, t: seq<RaycastHit>, point: Vector3): nat {
    if |t| == 0 then 0
    else (if Key(t[0], point) < Key(x, point) then 1 else 0) + CountCloser(x, t[1..], point)
  }

  /** The number of pairs in the wrong order: the measure every swap of the sort decreases. */
  function Inversions(s: seq<RaycastHit>, point: Vector3): nat {
    if |s| == 0 then 0
    else CountCloser(s[0], s[1..], point) + Inversions(s[1..], point)
  }

  lemma {:induction false} CountCloserSwap(x: RaycastHit, t: seq<RaycastHit>, j: nat, point: Vector3)
    requires j + 1 < |t|
    ensures CountCloser(x, Swap(t, j), point) == CountCloser(x, t, point)
  {
    if j == 0 {
      assert Swap(t, j)[1..][1..] == t[1..][1..];
    } else {
      assert Swap(t, j)[1..] == Swap(t[1..], j - 1);
      CountCloserSwap(x, t[1..], j - 1, point);
    }
  }

  /** Swapping an adjacent pair that is out of order removes exactly one inversion. */
  lemma {:induction false} InversionsSwap(s: seq<RaycastHit>, i: nat, point: Vector3)
    requires i + 1 < |s| && Key(s[i], point) > Key(s[i + 1], point)
    ensures Inversions(Swap(s, i), point) == Inversions(s, point) - 1
  {
    var r := Swap(s, i);
    if i == 0 {
      assert r[1..][1..] == s[1..][1..];
      assert r[1..][0] == s[0] && s[1..][0] == r[0];
    } else {
      assert r[1..] == Swap(s[1..], i - 1);
      CountCloserSwap(s[0], s[1..], i - 1, point);
      InversionsSwap(s[1..], i - 1, point);
    }
  }

  /**
   * The loop of SortNonAllocArrayByDistance as written, from index i: it stops
   * when i reaches `hits` or the array length; reading entry i + 1 past the end
   * throws (the second result); an out-of-order pair is swapped and the index is
   * rewound to max(i - 2, 0) before the loop's own increment, so a swap at i = 1
   * resumes at 1 without comparing entries 0 and 1 again.
   */
  function RunAsWritten(s: seq<RaycastHit>, i: nat, hits: int, point: Vector3): (r: (seq<RaycastHit>, bool))
    requires 2 <= |s| && i <= |s|
    ensures multiset(r.0) == multiset(s) && |r.0| == |s|
    decreases Inversions(s, point), if i < hits then hits - i else 0
  {
    if i >= hits || i == |s| then (s, false)
    else if i + 1 == |s| then (s, true)
    else if Key(s[i], point) > Key(s[i + 1], point) then
      InversionsSwap(s, i, point);
      RunAsWritten(Swap(s, i), (if i < 2 then 0 else i - 2) + 1, hits, point)
    else RunAsWritten(s, i + 1, hits, point)
  }

  /** SortNonAllocArrayByDistance as written: the final array, and whether it threw. */
  function SortAsWritten(s: seq<RaycastHit>, hits: int, point: Vector3): (r: (seq<RaycastHit>, bool))
    ensures multiset(r.0) == multiset(s) && |r.0| == |s|
    ensures |s| < 2 ==> r == (s, false)
  {
    if |s| < 2 then (s, false) else RunAsWritten(s, 0, hits, point)
  }

  /** Sorting the whole buffer (hits equal to its length, at least 2) always ends by reading past its end. */
  lemma {:induction false} WholeBufferThrows(s: seq<RaycastHit>, i: nat, point: Vector3)
    requires 2 <= |s| && i < |s|
    ensures RunAsWritten(s, i, |s|, point).1
    decreases Inversions(s, point), |s| - i
  {
    if i + 1 == |s| {
    } else if Key(s[i], point) > Key(s[i + 1], point) {
      InversionsSwap(s, i, point);
      WholeBufferThrows(Swap(s, i), (if i < 2 then 0 else i - 2) + 1, point);
    } else {
      WholeBufferThrows(s, i + 1, point);
    }
  }

  /** Whether an entry lies at squared distance `v` from `point`. */
  function AtKey(point: Vector3, v: real): RaycastHit -> bool {
    h => Key(h, point) == v
  }

  /**
   * Swapping an adjacent pair at different distances keeps, for every
   * distance, the entries at that distance in the same relative order.
   */
  lemma SwapKeepsTies(s: seq<RaycastHit>, i: nat, point: Vector3, v: real)
    requires i + 1 < |s| && Key(s[i], point) != Key(s[i + 1], point)
    ensures Filter(Swap(s, i), AtKey(point, v)) == Filter(s, AtKey(point, v))
  {
    var keep := AtKey(point, v);
    assert !(keep(s[i]) && keep(s[i + 1]));
    FilterSwap(s, Swap(s, i), i, keep);
  }

  /** Exchanging two adjacent elements that are not both kept leaves the filtered list as it was. */
  lemma FilterSwap<E>(s: seq<E>, t: seq<E>, i: nat, keep: E -> bool)
    requires i + 1 < |s| && |t| == |s| && t[i] == s[i + 1] && t[i + 1] == s[i]
    requires forall k :: 0 <= k < |s| && k != i && k != i + 1 ==> t[k] == s[k]
    requires !(keep(s[i]) && keep(s[i + 1]))
    ensures Filter(t, keep) == Filter(s, keep)
  {
    var a, x, y, b := s[..i], s[i], s[i + 1], s[i + 2..];
    calc {
      Filter(t, keep);
    == { assert t == (a + [y, x]) + b; }
      Filter((a + [y, x]) + b, keep);
    == { FilterAppend(a + [y, x], b, keep); FilterAppend(a, [y, x], keep); }
      Filter(a, keep) + Filter([y, x], keep) + Filter(b, keep);
    == { FilterPair(x, y, keep); }
      Filter(a, keep) + Filter([x, y], keep) + Filter(b, keep);
    == { FilterAppend(a + [x, y], b, keep); FilterAppend(a, [x, y], keep); }
      Filter((a + [x, y]) + b, keep);
    == { assert s == (a + [x, y]) + b; }
      Filter(s, keep);
    }
  }

  /** Two elements that are not both kept filter the same in either order. */
  lemma FilterPair<E>(x: E, y: E, keep: E -> bool)
    requires !(keep(x) && keep(y))
    ensures Filter([x, y], keep) == Filter([y, x], keep)
  {
    assert [x, y][..1] == [x] && [y, x][..1] == [y];
    assert [x][..0] == [] && [y][..0] == [];
  }

  /**
   * The loop as written is stable: only strictly farther entries move past
   * nearer ones, so for every distance the entries at that distance end in
   * the order they started in.
   */
  lemma {:induction false} RunKeepsTies(s: seq<RaycastHit>, i: nat, hits: int, point: Vector3, v: real)
    requires 2 <= |s| && i <= |s|
    ensures Filter(RunAsWritten(s, i, hits, point).0, AtKey(point, v)) == Filter(s, AtKey(point, v))
    decreases Inversions(s, point), if i < hits then hits - i else 0
  {
    if i >= hits || i == |s| {
    } else if i + 1 == |s| {
    } else if Key(s[i], point) > Key(s[i + 1], point) {
      InversionsSwap(s, i, point);
      SwapKeepsTies(s, i, point, v);
      RunKeepsTies(Swap(s, i), (if i < 2 then 0 else i - 2) + 1, hits, point, v);
    } else {
      RunKeepsTies(s, i + 1, hits, point, v);
    }
  }

  /** SortNonAllocArrayByDistance as written keeps equal-distance entries in their original order. */
  lemma SortKeepsTies(s: seq<RaycastHit>, hits: int, point: Vector3, v: real)
    ensures Filter(SortAsWritten(s, hits, point).0, AtKey(point, v)) == Filter(s, AtKey(point, v))
  {
    if |s| >= 2 {
      RunKeepsTies(s, 0, hits, point, v);
    }
  }

  /** Entries already in ascending order are never swapped: the run leaves them exactly as they are. */
  lemma {:induction false} SortedInputUntouched(s: seq<RaycastHit>, i: nat, hits: int, point: Vector3)
    requires 2 <= |s| && i <= |s| && SortedByDistance(s, point)
    ensures RunAsWritten(s, i, hits, point).0 == s
    decreases |s| - i
  {
    if i < hits && i + 1 < |s| {
      SortedInputUntouched(s, i + 1, hits, point);
    }
  }

  /** A concrete hit at distance |x| from the origin, on the x axis. */
  function At(x: real): RaycastHit {
    RaycastHit(Vector3(x, 0.0, 0.0), "")
  }

  /**
   * The rewind misses a pair: distances 2, 3, 1 (then 9) with hits = 3. The swap
   * at i = 1 gives 2, 1, 3 and the scan resumes at i = 1, so 2 and 1 stay out of order.
   */
  lemma RewindLeavesPrefixUnsorted()
    ensures var origin := Vector3(0.0, 0.0, 0.0);
      var r := SortAsWritten([At(2.0), At(3.0), At(1.0), At(9.0)], 3, origin);
      && !r.1 && r.0 == [At(2.0), At(1.0), At(3.0), At(9.0)]
      && !SortedByDistance(r.0[..3], origin)
  {
    var origin := Vector3(0.0, 0.0, 0.0);
    var s0 := [At(2.0), At(3.0), At(1.0), At(9.0)];
    var s1 := [At(2.0), At(1.0), At(3.0), At(9.0)];
    assert Swap(s0, 1) == s1;
    assert RunAsWritten(s0, 0, 3, origin) == RunAsWritten(s0, 1, 3, origin);
    assert RunAsWritten(s0, 1, 3, origin) == RunAsWritten(s1, 1, 3, origin);
    assert RunAsWritten(s1, 1, 3, origin) == RunAsWritten(s1, 2, 3, origin);
    assert RunAsWritten(s1, 2, 3, origin) == RunAsWritten(s1, 3, 3, origin);
    assert Key(s1[0], origin) > Key(s1[1], origin);
  }

  /**
   * The last comparison reaches past the prefix: distances 1, 5 and then a stale
   * entry at 0 with hits = 2. The stale entry is swapped into the prefix and the
   * hit at 5 is pushed out of it.
   */
  lemma StaleEntryPulledIn()
    ensures var origin := Vector3(0.0, 0.0, 0.0);
      var r := SortAsWritten([At(1.0), At(5.0), At(0.0)], 2, origin);
      && !r.1 && r.0 == [At(1.0), At(0.0), At(5.0)]
      && multiset(r.0[..2]) != multiset([At(1.0), At(5.0)])
  {
    var origin := Vector3(0.0, 0.0, 0.0);
    var s0 := [At(1.0), At(5.0), At(0.0)];
    var s1 := [At(1.0), At(0.0), At(5.0)];
    assert Swap(s0, 1) == s1;
    assert RunAsWritten(s0, 0, 2, origin) == RunAsWritten(s0, 1, 2, origin);
    assert RunAsWritten(s0, 1, 2, origin) == RunAsWritten(s1, 1, 2, origin);
    assert RunAsWritten(s1, 1, 2, origin) == RunAsWritten(s1, 2, 2, origin);
    assert r1: s1[..2] == [At(1.0), At(0.0)];
    assert At(0.0) in multiset(s1[..2]);
    assert At(0.0) !in multiset([At(1.0), At(5.0)]);
  }

  /** The buffer shared by the optimizer's raycasts, reused to avoid allocating on every call. */
  class HitBuffer {
    var nonAllocHits: array<RaycastHit>

    /** Sixteen default hits. */
    constructor ()
      ensures fresh(nonAllocHits) && nonAllocHits.Length == InitialAllocation
    {
      nonAllocHits := new RaycastHit[InitialAllocation](_ => DefaultHit);
    }

    /** The allocatedRaycastHits getter: the buffer's length. */
    function AllocatedRaycastHits(): (r: nat)
      reads this
      ensures r == nonAllocHits.Length
    {
      nonAllocHits.Length
    }

    /**
     * The allocatedRaycastHits setter: a fresh buffer of `value` default hits
     * when `value` differs from the current length and is more than 1; otherwise
     * the buffer stays as it is.
     */
    method SetAllocatedRaycastHits(value: int)
      modifies this`nonAllocHits
      ensures value != old(nonAllocHits.Length) && value > 1 ==>
        fresh(nonAllocHits) && nonAllocHits.Length == value
        && forall k :: 0 <= k < value ==> nonAllocHits[k] == DefaultHit
      ensures !(value != old(nonAllocHits.Length) && value > 1) ==> nonAllocHits == old(nonAllocHits)
    {
      if value != nonAllocHits.Length {
        if value > 1 {
          nonAllocHits := new RaycastHit[value](_ => DefaultHit);
        }
      }
    }
  }

  /**
   * SortNonAllocArrayByDistance as written: the array ends as SortAsWritten
   * describes, `thrown` standing for the IndexOutOfRangeException raised when
   * entry i + 1 is read past the end.
   */
  method SortNonAllocArrayByDistance(a: array<RaycastHit>, hits: int, point: Vector3) returns (thrown: bool)
    requires 0 <= hits <= a.Length
    modifies a
    ensures (a[..], thrown) == SortAsWritten(old(a[..]), hits, point)
  {
    thrown := false;
    if a.Length < 2 {
      return;
    }
    var i := 0;
    while i < hits
      invariant 0 <= i <= a.Length
      invariant SortAsWritten(old(a[..]), hits, point) == RunAsWritten(a[..], i, hits, point)
      decreases Inversions(a[..], point), hits - i
    {
      if i == a.Length {
        break;
      }
      if i + 1 == a.Length {
        thrown := true;
        return;
      }
      var thisHit := a[i];
      var nextHit := a[i + 1];
      if Key(thisHit, point) > Key(nextHit, point) {
        ghost var before := a[..];
        a[i] := nextHit;
        a[i + 1] := thisHit;
        assert a[..] == Swap(before, i);
        InversionsSwap(before, i, point);
        i := if i < 2 then 0 else i - 2;
      }
      i := i + 1;
    }
  }

  /** A prefix of a sorted sequence is sorted. */
  lemma SortedPrefix(s: seq<RaycastHit>, n: nat, point: Vector3)
    requires n <= |s| && SortedByDistance(s, point)
    ensures SortedByDistance(s[..n], point)
  {
  }

  /** A sorted sequence extended by an entry no closer than its last stays sorted. */
  lemma SortedExtend(s: seq<RaycastHit>, point: Vector3)
    requires 2 <= |s| && SortedByDistance(s[..|s| - 1], point)
    requires Key(s[|s| - 2], point) <= Key(s[|s| - 1], point)
    ensures SortedByDistance(s, point)
  {
    forall p, q | 0 <= p < q < |s|
      ensures Key(s[p], point) <= Key(s[q], point)
    {
      if q == |s| - 1 && p < |s| - 2 {
        assert Key(s[..|s| - 1][p], point) <= Key(s[..|s| - 1][|s| - 2], point);
      } else if q < |s| - 1 {
        assert Key(s[..|s| - 1][p], point) <= Key(s[..|s| - 1][q], point);
      }
    }
  }

  /**
   * One swap of the intended sort: the prefix is rearranged with one inversion
   * fewer, the rest is untouched, and the sorted run shrinks by one place at most.
   */
  lemma SwapStep(before: seq<RaycastHit>, after: seq<RaycastHit>, i: nat, hits: nat, point: Vector3)
    requires i + 1 < hits <= |before| && after == Swap(before, i)
    requires Key(before[i], point) > Key(before[i + 1], point)
    requires SortedByDistance(before[..i + 1], point)
    ensures multiset(after[..hits]) == multiset(before[..hits])
    ensures after[hits..] == before[hits..]
    ensures Inversions(after[..hits], point) < Inversions(before[..hits], point)
    ensures SortedByDistance(after[..(if i < 1 then 0 else i - 1) + 1], point)
  {
    assert after[..hits] == Swap(before[..hits], i);
    InversionsSwap(before[..hits], i, point);
    if i >= 1 {
      SortedPrefix(before[..i + 1], i, point);
      assert before[..i + 1][..i] == after[..i];
    }
  }

  /** A step forward of the intended sort: an in-order pair extends the sorted run. */
  lemma AdvanceStep(s: seq<RaycastHit>, i: nat, point: Vector3)
    requires i + 1 < |s| && SortedByDistance(s[..i + 1], point)
    requires Key(s[i], point) <= Key(s[i + 1], point)
    ensures SortedByDistance(s[..i + 2], point)
  {
    assert s[..i + 2][..i + 1] == s[..i + 1];
    SortedExtend(s[..i + 2], point);
  }

  /**
   * What the sort evidently means: the first `hits` entries end in ascending
   * distance from `point`, as a rearrangement of themselves, and nothing after
   * them changes. After a swap the scan steps back one place, also from i = 1,
   * and it never compares past the prefix.
   */
  method SortByDistanceIntended(a: array<RaycastHit>, hits: int, point: Vector3)
    requires 0 <= hits <= a.Length
    modifies a
    ensures SortedByDistance(a[..hits], point)
    ensures multiset(a[..hits]) == multiset(old(a[..hits]))
    ensures a[hits..] == old(a[hits..])
  {
    if hits == 0 {
      return;
    }
    var i := 0;
    while i + 1 < hits
      invariant 0 <= i < hits
      invariant SortedByDistance(a[..i + 1], point)
      invariant multiset(a[..hits]) == multiset(old(a[..hits]))
      invariant a[hits..] == old(a[hits..])
      decreases Inversions(a[..hits], point), hits - i
    {
      var thisHit := a[i];
      var nextHit := a[i + 1];
      if Key(thisHit, point) > Key(nextHit, point) {
        ghost var before := a[..];
        a[i] := nextHit;
        a[i + 1] := thisHit;
        SwapStep(before, a[..], i, hits, point);
        i := if i < 1 then 0 else i - 1;
      } else {
        AdvanceStep(a[..], i, point);
        i := i + 1;
      }
    }
  }

  /**
   * FirstValidHit: the first of the first `hits` entries whose tag is not
   * ignored, and true; false and the default hit when every one is ignored.
   */
  method FirstValidHit(a: array<RaycastHit>, hits: int, ignoreTags: seq<string>) returns (found: bool, hit: RaycastHit)
    requires hits <= a.Length
    ensures found <==> exists k :: 0 <= k < hits && a[k].tag !in ignoreTags
    ensures found ==> exists k :: 0 <= k < hits && a[k].tag !in ignoreTags && hit == a[k]
                                  && forall j :: 0 <= j < k ==> a[j].tag in ignoreTags
    ensures !found ==> hit == DefaultHit
  {
    for i := 0 to if hits < 0 then 0 else hits
      invariant forall j :: 0 <= j < i ==> a[j].tag in ignoreTags
    {
      if a[i].tag !in ignoreTags {
        hit := a[i];
        return true, hit;
      }
    }
    hit := DefaultHit;
    return false, hit;
  }
}
