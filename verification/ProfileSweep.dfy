/** Week ranges of profile segments: the sorted farthest-end sweep and what it decides. */
module ProfileSweep {
  import opened Common
  import Sorting

  /** A number field as stored: finite, or one of the runtime's not-a-number and infinite values. */
  datatype Number = Finite(value: real) | NotFinite

  datatype WeekRange = WeekRange(startWeek: real, endWeek: real, percent: real)

  predicate IsInteger(value: real) {
    value == value.Floor as real
  }

  predicate IsWeek(number: Number) {
    number.Finite? && IsInteger(number.value) && number.value >= 0.0
  }

  predicate StartsFirst(a: WeekRange, b: WeekRange) {
    a.startWeek <= b.startWeek
  }

  /** Ascending start, then end, then percentage. */
  predicate ByRange(a: WeekRange, b: WeekRange) {
    if a.startWeek != b.startWeek then a.startWeek < b.startWeek
    else if a.endWeek != b.endWeek then a.endWeek < b.endWeek
    else a.percent <= b.percent
  }

  ghost predicate Sound(ranges: seq<WeekRange>) {
    forall i :: 0 <= i < |ranges| ==> 0.0 <= ranges[i].startWeek <= ranges[i].endWeek
  }

  predicate Overlap(a: WeekRange, b: WeekRange) {
    a.startWeek <= b.endWeek && b.startWeek <= a.endWeek
  }

  /** No two ranges share a week. */
  ghost predicate Disjoint(ranges: seq<WeekRange>) {
    forall i, j :: 0 <= i < j < |ranges| ==> !Overlap(ranges[i], ranges[j])
  }

  /** The farthest end among the first i ranges, or -1. */
  function FarthestEnd(ranges: seq<WeekRange>, i: nat): real
    requires i <= |ranges|
  {
    if i == 0 then -1.0
    else
      var before := FarthestEnd(ranges, i - 1);
      if ranges[i - 1].endWeek > before then ranges[i - 1].endWeek else before
  }

  /** The sweep as the validators run it: does any range start inside what came before it? */
  method SweepFindsOverlap(ranges: seq<WeekRange>) returns (found: bool)
    ensures found <==> exists i :: 0 <= i < |ranges| && ranges[i].startWeek <= FarthestEnd(ranges, i)
  {
    found := false;
    var priorEnd := -1.0;
    for i := 0 to |ranges|
      invariant priorEnd == FarthestEnd(ranges, i)
      invariant found <==> exists k :: 0 <= k < i && ranges[k].startWeek <= FarthestEnd(ranges, k)
    {
      if ranges[i].startWeek <= priorEnd {
        found := true;
      }
      if ranges[i].endWeek > priorEnd {
        priorEnd := ranges[i].endWeek;
      }
    }
  }

  lemma {:induction false} FarthestEndIs(ranges: seq<WeekRange>, i: nat)
    requires i <= |ranges|
    ensures forall k :: 0 <= k < i ==> ranges[k].endWeek <= FarthestEnd(ranges, i)
    ensures FarthestEnd(ranges, i) == -1.0 || exists k :: 0 <= k < i && ranges[k].endWeek == FarthestEnd(ranges, i)
  {
    if i == 0 {
    } else {
      FarthestEndIs(ranges, i - 1);
    }
  }

  /** On ranges sorted by start, the sweep is silent exactly when all ranges are disjoint. */
  lemma SweepDecidesOverlap(ranges: seq<WeekRange>)
    requires Sound(ranges) && Sorting.Sorted(ranges, StartsFirst)
    ensures (exists i :: 0 <= i < |ranges| && ranges[i].startWeek <= FarthestEnd(ranges, i)) <==> !Disjoint(ranges)
  {
    if i :| 0 <= i < |ranges| && ranges[i].startWeek <= FarthestEnd(ranges, i) {
      FarthestEndIs(ranges, i);
      var k :| 0 <= k < i && ranges[k].endWeek == FarthestEnd(ranges, i);
      assert Overlap(ranges[k], ranges[i]);
    }
    if !Disjoint(ranges) {
      var i, j :| 0 <= i < j < |ranges| && Overlap(ranges[i], ranges[j]);
      FarthestEndIs(ranges, j);
      assert ranges[j].startWeek <= FarthestEnd(ranges, j);
    }
  }

  /** Overlap is a matter of which ranges there are, not of their order. */
  ghost predicate DisjointBag(bag: multiset<WeekRange>) {
    && (forall a, b :: a in bag && b in bag && a != b ==> !Overlap(a, b))
    && (forall a :: a in bag ==> bag[a] == 1)
  }

  lemma TwiceInSequence(s: seq<WeekRange>, x: WeekRange) returns (i: nat, j: nat)
    requires multiset(s)[x] >= 2
    ensures i < j < |s| && s[i] == x && s[j] == x
  {
    assert x in multiset(s);
    i :| 0 <= i < |s| && s[i] == x && x !in s[..i] by {
      assert x in s;
      FirstIndex(s, x);
    }
    assert s == s[..i] + [x] + s[i + 1..];
    assert x in multiset(s[i + 1..]);
    var k :| 0 <= k < |s[i + 1..]| && s[i + 1..][k] == x;
    j := i + 1 + k;
  }

  lemma {:induction false} FirstIndex(s: seq<WeekRange>, x: WeekRange)
    requires x in s
    ensures exists i :: 0 <= i < |s| && s[i] == x && x !in s[..i]
  {
    var last := |s| - 1;
    if x in s[..last] {
      FirstIndex(s[..last], x);
      var i :| 0 <= i < last && s[..last][i] == x && x !in s[..last][..i];
      assert s[..last][..i] == s[..i];
    } else {
      assert s == s[..last] + [s[last]];
      assert s[last] == x && x !in s[..last];
    }
  }

  lemma RepeatedNotDisjoint(ranges: seq<WeekRange>, x: WeekRange)
    requires Sound(ranges) && multiset(ranges)[x] >= 2
    ensures !Disjoint(ranges)
  {
    var i, j := TwiceInSequence(ranges, x);
    assert Overlap(ranges[i], ranges[j]);
  }

  lemma DisjointIsDisjointBag(ranges: seq<WeekRange>)
    requires Sound(ranges)
    ensures Disjoint(ranges) <==> DisjointBag(multiset(ranges))
  {
    var bag := multiset(ranges);
    if Disjoint(ranges) {
      forall a, b | a in bag && b in bag && a != b
        ensures !Overlap(a, b)
      {
        var i :| 0 <= i < |ranges| && ranges[i] == a;
        var j :| 0 <= j < |ranges| && ranges[j] == b;
        assert i < j || j < i;
      }
      forall a | a in bag
        ensures bag[a] == 1
      {
        if bag[a] >= 2 {
          RepeatedNotDisjoint(ranges, a);
        }
      }
    }
    if DisjointBag(bag) {
      forall i, j | 0 <= i < j < |ranges|
        ensures !Overlap(ranges[i], ranges[j])
      {
        assert ranges[i] in bag && ranges[j] in bag;
        if ranges[i] == ranges[j] {
          Repeated(ranges, i, j);
        }
      }
    }
  }

  lemma SortSound(ranges: seq<WeekRange>, le: (WeekRange, WeekRange) -> bool)
    requires Sound(ranges)
    ensures Sound(Sorting.SortBy(ranges, le))
  {
    var sorted := Sorting.SortBy(ranges, le);
    forall i | 0 <= i < |sorted|
      ensures 0.0 <= sorted[i].startWeek <= sorted[i].endWeek
    {
      Sorting.SortMembers(ranges, le, sorted[i]);
    }
  }

  /** Sorting first, by start alone or by the full key, then sweeping, decides disjointness of the ranges as given. */
  lemma SortedSweepDecides(ranges: seq<WeekRange>, le: (WeekRange, WeekRange) -> bool)
    requires Sound(ranges) && Sorting.TotalPreorder(le)
    requires forall a, b :: le(a, b) ==> StartsFirst(a, b)
    ensures var sorted := Sorting.SortBy(ranges, le);
            (exists i :: 0 <= i < |sorted| && sorted[i].startWeek <= FarthestEnd(sorted, i)) <==> !Disjoint(ranges)
  {
    var sorted := Sorting.SortBy(ranges, le);
    Sorting.SortSorts(ranges, le);
    Sorting.SortKeepsElements(ranges, le);
    SortSound(ranges, le);
    assert Sorting.Sorted(sorted, StartsFirst);
    SweepDecidesOverlap(sorted);
    DisjointIsDisjointBag(ranges);
    DisjointIsDisjointBag(sorted);
  }

  lemma SweepOrders()
    ensures Sorting.TotalPreorder(StartsFirst) && Sorting.TotalPreorder(ByRange)
    ensures forall a, b :: ByRange(a, b) ==> StartsFirst(a, b)
  {
  }

  /** Input order does not matter. */
  lemma DisjointOrderFree(a: seq<WeekRange>, b: seq<WeekRange>)
    requires Sound(a) && Sound(b) && multiset(a) == multiset(b)
    ensures Disjoint(a) <==> Disjoint(b)
  {
    DisjointIsDisjointBag(a);
    DisjointIsDisjointBag(b);
  }

  // ── Exact duplicates ───────────────────────────────────────────────────────

  ghost predicate RepeatsRange(ranges: seq<WeekRange>) {
    exists i, j :: 0 <= i < j < |ranges| && SameRange(ranges[i], ranges[j])
  }

  predicate SameRange(a: WeekRange, b: WeekRange) {
    a.startWeek == b.startWeek && a.endWeek == b.endWeek
  }

  method FindsDuplicateRange(ranges: seq<WeekRange>) returns (found: bool)
    ensures found <==> RepeatsRange(ranges)
  {
    found := false;
    var seenRanges: set<(real, real)> := {};
    for i := 0 to |ranges|
      invariant forall key :: key in seenRanges <==> exists k :: 0 <= k < i && (ranges[k].startWeek, ranges[k].endWeek) == key
      invariant found <==> exists j, k :: 0 <= j < k < i && SameRange(ranges[j], ranges[k])
    {
      var key := (ranges[i].startWeek, ranges[i].endWeek);
      if key in seenRanges {
        found := true;
        var j :| 0 <= j < i && (ranges[j].startWeek, ranges[j].endWeek) == key;
        assert SameRange(ranges[j], ranges[i]);
      }
      seenRanges := seenRanges + {key};
    }
  }

  lemma DuplicatesOverlap(ranges: seq<WeekRange>)
    requires Sound(ranges) && RepeatsRange(ranges)
    ensures !Disjoint(ranges)
  {
  }
}
