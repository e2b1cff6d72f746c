/** Splitting published periods at draft locks and writing the locked headcounts into them. */
module DraftLocks {
  import opened Common
  import opened Scheduler
  import opened Plan
  import Sorting

  predicate IsActive(edit: CapacityEdit, week: int) {
    edit.startWeek <= week < edit.endWeek
  }

  /** What draft acceptance guarantees of a lock. */
  predicate ValidLocks(locks: seq<CapacityEdit>) {
    forall i :: 0 <= i < |locks| ==> locks[i].locked && locks[i].startWeek < locks[i].endWeek
  }

  // ── Boundaries ─────────────────────────────────────────────────────────────

  /** Adding to an insertion-ordered set. */
  function AddOnce<T(==,!new)>(s: seq<T>, x: T): (r: seq<T>)
    ensures forall y :: y in r <==> y in s || y == x
  {
    if x in s then s else s + [x]
  }

  lemma AddOnceDistinct<T(!new)>(s: seq<T>, x: T)
    requires NoDuplicates(s)
    ensures NoDuplicates(AddOnce(s, x))
  {
  }

  function PeriodBoundaries(periods: seq<Period>): (r: seq<int>) {
    if periods == [] then []
    else
      var last := periods[|periods| - 1];
      AddOnce(AddOnce(PeriodBoundaries(periods[..|periods| - 1]), last.startWeek), last.endWeek)
  }

  function AllBoundaries(periods: seq<Period>, locks: seq<CapacityEdit>): (r: seq<int>) {
    if locks == [] then PeriodBoundaries(periods)
    else
      var last := locks[|locks| - 1];
      AddOnce(AddOnce(AllBoundaries(periods, locks[..|locks| - 1]), last.startWeek), last.endWeek)
  }

  ghost predicate PeriodEdge(periods: seq<Period>, x: int) {
    exists period :: period in periods && (period.startWeek == x || period.endWeek == x)
  }

  ghost predicate LockEdge(locks: seq<CapacityEdit>, x: int) {
    exists lock :: lock in locks && (lock.startWeek == x || lock.endWeek == x)
  }

  lemma {:induction false} PeriodBoundariesDistinct(periods: seq<Period>)
    ensures NoDuplicates(PeriodBoundaries(periods))
  {
    if periods == [] {
    } else {
      var last := periods[|periods| - 1];
      var before := PeriodBoundaries(periods[..|periods| - 1]);
      PeriodBoundariesDistinct(periods[..|periods| - 1]);
      AddOnceDistinct(before, last.startWeek);
      AddOnceDistinct(AddOnce(before, last.startWeek), last.endWeek);
    }
  }

  lemma {:induction false} PeriodBoundariesAre(periods: seq<Period>, x: int)
    ensures x in PeriodBoundaries(periods) <==> PeriodEdge(periods, x)
  {
    if periods == [] {
    } else {
      PeriodBoundariesAre(periods[..|periods| - 1], x);
      PeriodEdgeLast(periods, x);
    }
  }

  lemma PeriodEdgeLast(periods: seq<Period>, x: int)
    requires periods != []
    ensures var last := periods[|periods| - 1];
            PeriodEdge(periods, x) <==> PeriodEdge(periods[..|periods| - 1], x) || last.startWeek == x || last.endWeek == x
  {
  }

  lemma {:induction false} AllBoundariesDistinct(periods: seq<Period>, locks: seq<CapacityEdit>)
    ensures NoDuplicates(AllBoundaries(periods, locks))
  {
    if locks == [] {
      PeriodBoundariesDistinct(periods);
    } else {
      var last := locks[|locks| - 1];
      var before := AllBoundaries(periods, locks[..|locks| - 1]);
      AllBoundariesDistinct(periods, locks[..|locks| - 1]);
      AddOnceDistinct(before, last.startWeek);
      AddOnceDistinct(AddOnce(before, last.startWeek), last.endWeek);
    }
  }

  lemma {:induction false} AllBoundariesAre(periods: seq<Period>, locks: seq<CapacityEdit>, x: int)
    ensures x in AllBoundaries(periods, locks) <==> PeriodEdge(periods, x) || LockEdge(locks, x)
  {
    if locks == [] {
      PeriodBoundariesAre(periods, x);
    } else {
      AllBoundariesAre(periods, locks[..|locks| - 1], x);
      LockEdgeLast(locks, x);
    }
  }

  lemma LockEdgeLast(locks: seq<CapacityEdit>, x: int)
    requires locks != []
    ensures var last := locks[|locks| - 1];
            LockEdge(locks, x) <==> LockEdge(locks[..|locks| - 1], x) || last.startWeek == x || last.endWeek == x
  {
  }

  predicate AtMostInt(a: int, b: int) { a <= b }

  ghost predicate Increasing(s: seq<int>) {
    forall i, j :: 0 <= i < j < |s| ==> s[i] < s[j]
  }

  function SortedBoundaries(periods: seq<Period>, locks: seq<CapacityEdit>): seq<int> {
    Sorting.SortBy(AllBoundaries(periods, locks), AtMostInt)
  }

  lemma DistinctSortIncreases(s: seq<int>)
    requires NoDuplicates(s)
    ensures Increasing(Sorting.SortBy(s, AtMostInt))
    ensures forall x :: x in Sorting.SortBy(s, AtMostInt) <==> x in s
  {
    var sorted := Sorting.SortBy(s, AtMostInt);
    Sorting.SortSorts(s, AtMostInt);
    Sorting.SortKeepsElements(s, AtMostInt);
    forall x
      ensures x in sorted <==> x in s
    {
      Sorting.SortMembers(s, AtMostInt, x);
    }
    forall i, j | 0 <= i < j < |sorted|
      ensures sorted[i] < sorted[j]
    {
      if sorted[i] == sorted[j] {
        Repeated(sorted, i, j);
        DistinctOnce(s, sorted[i]);
      }
    }
  }

  lemma {:induction false} DistinctOnce(s: seq<int>, x: int)
    requires NoDuplicates(s)
    ensures multiset(s)[x] <= 1
  {
    if s == [] {
    } else {
      var last := |s| - 1;
      DistinctOnce(s[..last], x);
      assert s == s[..last] + [s[last]];
    }
  }

  lemma HeadIsMember(s: seq<int>)
    ensures s != [] ==> s[0] in s
  {
  }

  /** An increasing sequence is determined by its members. */
  lemma {:induction false} IncreasingUnique(a: seq<int>, b: seq<int>)
    requires Increasing(a) && Increasing(b) && forall x :: x in a <==> x in b
    ensures a == b
  {
    HeadIsMember(a);
    HeadIsMember(b);
    if a == [] {
    } else {
      assert a[0] in b && b != [];
      assert b[0] in a;
      assert a[0] == b[0];
      forall x
        ensures x in a[1..] <==> x in b[1..]
      {
        assert x in a[1..] <==> x in a && x != a[0] by {
          assert a == [a[0]] + a[1..];
        }
        assert x in b[1..] <==> x in b && x != b[0] by {
          assert b == [b[0]] + b[1..];
        }
      }
      IncreasingUnique(a[1..], b[1..]);
      assert a == [a[0]] + a[1..] && b == [b[0]] + b[1..];
    }
  }

  lemma BoundariesIncrease(periods: seq<Period>, locks: seq<CapacityEdit>)
    ensures Increasing(SortedBoundaries(periods, locks))
    ensures forall x :: x in SortedBoundaries(periods, locks) <==> PeriodEdge(periods, x) || LockEdge(locks, x)
  {
    AllBoundariesDistinct(periods, locks);
    DistinctSortIncreases(AllBoundaries(periods, locks));
    forall x
      ensures x in SortedBoundaries(periods, locks) <==> PeriodEdge(periods, x) || LockEdge(locks, x)
    {
      AllBoundariesAre(periods, locks, x);
    }
  }

  // ── Pieces ─────────────────────────────────────────────────────────────────

  function ActiveLocks(locks: seq<CapacityEdit>, week: int): (r: seq<CapacityEdit>) {
    if locks == [] then []
    else if IsActive(locks[0], week) then [locks[0]] + ActiveLocks(locks[1..], week)
    else ActiveLocks(locks[1..], week)
  }

  function FirstFor(locks: seq<CapacityEdit>, roleId: Id): Option<CapacityEdit> {
    if locks == [] then None
    else if locks[0].roleId == roleId then Some(locks[0])
    else FirstFor(locks[1..], roleId)
  }

  /** The lock that governs a role in a week: the first active one. */
  function GoverningLock(locks: seq<CapacityEdit>, roleId: Id, week: int): Option<CapacityEdit> {
    FirstFor(ActiveLocks(locks, week), roleId)
  }

  function SourceIds(resources: seq<RoleHeadcount>): (r: seq<Id>) {
    if resources == [] then []
    else AddOnce(SourceIds(resources[..|resources| - 1]), resources[|resources| - 1].roleId)
  }

  function WithLockIds(ids: seq<Id>, active: seq<CapacityEdit>): (r: seq<Id>)
    ensures forall id :: id in ids ==> id in r
  {
    if active == [] then ids
    else AddOnce(WithLockIds(ids, active[..|active| - 1]), active[|active| - 1].roleId)
  }

  function SourceHeadcount(resources: seq<RoleHeadcount>, roleId: Id): nat {
    var source := FindRole(resources, roleId);
    if source.Some? then source.value.headcount else 0
  }

  function PieceHeadcount(resources: seq<RoleHeadcount>, active: seq<CapacityEdit>, roleId: Id): nat {
    var lock := FirstFor(active, roleId);
    if lock.Some? then lock.value.headcount else SourceHeadcount(resources, roleId)
  }

  function RateOf(dayRates: map<Id, nat>, roleId: Id): nat {
    if roleId in dayRates then dayRates[roleId] else 0
  }

  function PieceResources(ids: seq<Id>, resources: seq<RoleHeadcount>, active: seq<CapacityEdit>,
                          dayRates: map<Id, nat>, width: nat): (r: seq<RoleHeadcount>)
    ensures |r| == |ids|
  {
    seq(|ids|, k requires 0 <= k < |ids| =>
      RoleHeadcount(ids[k], PieceHeadcount(resources, active, ids[k]),
                    PieceHeadcount(resources, active, ids[k]) * RateOf(dayRates, ids[k]) * width * 5))
  }

  function SourceResources(periods: seq<Period>, week: int): seq<RoleHeadcount> {
    var source := FindPeriod(periods, week);
    if source.Some? then source.value.resources else []
  }

  /** One piece between two boundaries, unless neither a period nor a lock is there. */
  function PieceAt(periods: seq<Period>, locks: seq<CapacityEdit>, dayRates: map<Id, nat>,
                   startWeek: int, endWeek: int, index: nat): Option<Period>
    requires startWeek < endWeek
  {
    var active := ActiveLocks(locks, startWeek);
    if FindPeriod(periods, startWeek).None? && active == [] then None
    else
      var resources := SourceResources(periods, startWeek);
      var ids := WithLockIds(SourceIds(resources), active);
      Some(Period(index, startWeek, endWeek, PieceResources(ids, resources, active, dayRates, endWeek - startWeek)))
  }

  function Pieces(boundaries: seq<int>, periods: seq<Period>, locks: seq<CapacityEdit>, dayRates: map<Id, nat>, n: nat): (r: seq<Period>)
    requires Increasing(boundaries) && (n == 0 || n < |boundaries|)
  {
    if n == 0 then []
    else
      var before := Pieces(boundaries, periods, locks, dayRates, n - 1);
      var piece := PieceAt(periods, locks, dayRates, boundaries[n - 1], boundaries[n], |before|);
      if piece.None? then before else before + [piece.value]
  }

  ghost function Split(periods: seq<Period>, locks: seq<CapacityEdit>, dayRates: map<Id, nat>): seq<Period> {
    if locks == [] then periods
    else
      BoundariesIncrease(periods, locks);
      var boundaries := SortedBoundaries(periods, locks);
      if |boundaries| < 2 then periods else Pieces(boundaries, periods, locks, dayRates, |boundaries| - 1)
  }

  method SplitAndApplyDraftLocks(periods: seq<Period>, locks: seq<CapacityEdit>, dayRates: map<Id, nat>) returns (result: seq<Period>)
    ensures result == Split(periods, locks, dayRates)
  {
    if locks == [] {
      return periods;
    }
    var sorted := SortedBoundaries(periods, locks);
    BoundariesIncrease(periods, locks);
    hide PieceAt, SortedBoundaries;
    if |sorted| < 2 {
      return periods;
    }
    result := [];
    for index := 0 to |sorted| - 1
      invariant result == Pieces(sorted, periods, locks, dayRates, index)
    {
      var piece := PieceAt(periods, locks, dayRates, sorted[index], sorted[index + 1], |result|);
      if piece.None? {
        continue;
      }
      result := result + [piece.value];
    }
  }

  // ── What the pieces contain ────────────────────────────────────────────────

  lemma {:induction false} SourceIdsAre(resources: seq<RoleHeadcount>, roleId: Id)
    ensures NoDuplicates(SourceIds(resources))
    ensures roleId in SourceIds(resources) <==> exists r :: r in resources && r.roleId == roleId
  {
    if resources == [] {
    } else {
      var last := |resources| - 1;
      SourceIdsAre(resources[..last], roleId);
      AddOnceDistinct(SourceIds(resources[..last]), resources[last].roleId);
      assert resources == resources[..last] + [resources[last]];
    }
  }

  lemma {:induction false} FindRoleSome(resources: seq<RoleHeadcount>, roleId: Id)
    ensures FindRole(resources, roleId).Some? <==> exists r :: r in resources && r.roleId == roleId
  {
    if resources == [] {
    } else {
      FindRoleSome(resources[1..], roleId);
      assert resources == [resources[0]] + resources[1..];
    }
  }

  lemma {:induction false} WithLockIdsAre(ids: seq<Id>, active: seq<CapacityEdit>, roleId: Id)
    requires NoDuplicates(ids)
    ensures NoDuplicates(WithLockIds(ids, active))
    ensures roleId in WithLockIds(ids, active) <==> roleId in ids || exists l :: l in active && l.roleId == roleId
    ensures (forall l :: l in active ==> l.roleId in ids) ==> WithLockIds(ids, active) == ids
  {
    if active == [] {
    } else {
      var last := |active| - 1;
      WithLockIdsAre(ids, active[..last], roleId);
      AddOnceDistinct(WithLockIds(ids, active[..last]), active[last].roleId);
      assert active == active[..last] + [active[last]];
    }
  }

  lemma {:induction false} FirstForSome(active: seq<CapacityEdit>, roleId: Id)
    ensures FirstFor(active, roleId).Some? <==> exists l :: l in active && l.roleId == roleId
    ensures FirstFor(active, roleId).Some? ==> FirstFor(active, roleId).value in active
  {
    if active == [] {
    } else {
      FirstForSome(active[1..], roleId);
      assert active == [active[0]] + active[1..];
    }
  }

  /** A piece's entry for a role: locked, else as in the source, else absent. */
  lemma PieceRole(resources: seq<RoleHeadcount>, active: seq<CapacityEdit>, dayRates: map<Id, nat>, width: nat, roleId: Id)
    ensures var ids := WithLockIds(SourceIds(resources), active);
            var found := FindRole(PieceResources(ids, resources, active, dayRates, width), roleId);
            && (found.Some? <==> FirstFor(active, roleId).Some? || FindRole(resources, roleId).Some?)
            && (found.Some? ==> found.value.headcount == PieceHeadcount(resources, active, roleId))
  {
    var ids := WithLockIds(SourceIds(resources), active);
    var piece := PieceResources(ids, resources, active, dayRates, width);
    SourceIdsAre(resources, roleId);
    FindRoleSome(resources, roleId);
    FirstForSome(active, roleId);
    WithLockIdsAre(SourceIds(resources), active, roleId);
    FindRoleSome(piece, roleId);
    if roleId in ids {
      var k :| 0 <= k < |ids| && ids[k] == roleId;
      assert piece[k] in piece;
      FindDistinctRole(piece, k);
    }
  }

  lemma {:induction false} FindPeriodAppend(periods: seq<Period>, period: Period, week: int)
    ensures FindPeriod(periods + [period], week)
         == if FindPeriod(periods, week).Some? then FindPeriod(periods, week)
            else if Spans(period, week) then Some(period) else None
  {
    if periods == [] {
    } else {
      assert (periods + [period])[1..] == periods[1..] + [period];
      FindPeriodAppend(periods[1..], period, week);
    }
  }

  /** The pieces are ordered, numbered, between boundaries, and end where the boundaries read so far end. */
  ghost predicate PiecesUpTo(pieces: seq<Period>, boundaries: seq<int>, n: nat)
    requires n == 0 || n < |boundaries|
  {
    && Ordered(pieces)
    && forall i :: 0 <= i < |pieces| ==> pieces[i].periodIndex == i && PieceWithin(pieces[i], boundaries, n)
  }

  predicate PieceWithin(piece: Period, boundaries: seq<int>, n: nat)
    requires n == 0 || n < |boundaries|
  {
    && n > 0 && boundaries[0] <= piece.startWeek && piece.endWeek <= boundaries[n]
    && piece.startWeek in boundaries && piece.endWeek in boundaries
  }

  lemma {:induction false} PiecesOrdered(boundaries: seq<int>, periods: seq<Period>, locks: seq<CapacityEdit>, dayRates: map<Id, nat>, n: nat)
    requires Increasing(boundaries) && (n == 0 || n < |boundaries|)
    ensures PiecesUpTo(Pieces(boundaries, periods, locks, dayRates, n), boundaries, n)
  {
    if n == 0 {
    } else {
      hide PieceAt, PiecesUpTo;
      PiecesOrdered(boundaries, periods, locks, dayRates, n - 1);
      var before := Pieces(boundaries, periods, locks, dayRates, n - 1);
      PieceWeeks(periods, locks, dayRates, boundaries[n - 1], boundaries[n], |before|);
      NextPiece(before, PieceAt(periods, locks, dayRates, boundaries[n - 1], boundaries[n], |before|), boundaries, n);
    }
  }

  lemma PieceWeeks(periods: seq<Period>, locks: seq<CapacityEdit>, dayRates: map<Id, nat>, startWeek: int, endWeek: int, index: nat)
    requires startWeek < endWeek
    ensures var piece := PieceAt(periods, locks, dayRates, startWeek, endWeek, index);
            piece.Some? ==>
              piece.value.periodIndex == index && piece.value.startWeek == startWeek && piece.value.endWeek == endWeek
  {
  }

  lemma NextPiece(before: seq<Period>, piece: Option<Period>, boundaries: seq<int>, n: nat)
    requires Increasing(boundaries) && 0 < n < |boundaries| && PiecesUpTo(before, boundaries, n - 1)
    requires piece.Some? ==>
               piece.value.periodIndex == |before| && piece.value.startWeek == boundaries[n - 1] && piece.value.endWeek == boundaries[n]
    ensures PiecesUpTo(if piece.None? then before else before + [piece.value], boundaries, n)
  {
    BoundsIncrease(boundaries, n);
    hide Increasing, Ordered;
    forall i | 0 <= i < |before|
      ensures PieceWithin(before[i], boundaries, n) && before[i].endWeek <= boundaries[n - 1]
    {
      WithinMore(before[i], boundaries, n);
    }
    if piece.Some? {
      OrderedAppend(before, piece.value);
      assert PieceWithin(piece.value, boundaries, n);
    }
  }

  lemma WithinMore(piece: Period, boundaries: seq<int>, n: nat)
    requires 0 < n < |boundaries| && PieceWithin(piece, boundaries, n - 1) && boundaries[n - 1] < boundaries[n]
    ensures PieceWithin(piece, boundaries, n) && piece.endWeek <= boundaries[n - 1]
  {
  }

  lemma OrderedAppend(before: seq<Period>, piece: Period)
    requires Ordered(before) && piece.startWeek < piece.endWeek
    requires forall i :: 0 <= i < |before| ==> before[i].endWeek <= piece.startWeek
    ensures Ordered(before + [piece])
  {
  }

  lemma BoundsIncrease(boundaries: seq<int>, n: nat)
    requires Increasing(boundaries) && 0 < n < |boundaries|
    ensures boundaries[0] <= boundaries[n - 1] < boundaries[n]
    ensures boundaries[n - 1] in boundaries && boundaries[n] in boundaries
  {
  }

  /** Looking a week up among the pieces finds exactly the piece between its boundaries. */
  lemma {:induction false} FindInPieces(boundaries: seq<int>, periods: seq<Period>, locks: seq<CapacityEdit>, dayRates: map<Id, nat>,
                                        n: nat, k: nat, week: int) returns (index: nat)
    requires Increasing(boundaries) && k < n < |boundaries| && boundaries[k] <= week < boundaries[k + 1]
    ensures FindPeriod(Pieces(boundaries, periods, locks, dayRates, n), week)
         == PieceAt(periods, locks, dayRates, boundaries[k], boundaries[k + 1], index)
  {
    hide PieceAt, FindPeriod, PiecesUpTo;
    var before := Pieces(boundaries, periods, locks, dayRates, n - 1);
    var last := PieceAt(periods, locks, dayRates, boundaries[n - 1], boundaries[n], |before|);
    PieceWeeks(periods, locks, dayRates, boundaries[n - 1], boundaries[n], |before|);
    if k == n - 1 {
      index := |before|;
      PiecesOrdered(boundaries, periods, locks, dayRates, n - 1);
      NothingYet(before, boundaries, n - 1, week);
    } else {
      index := FindInPieces(boundaries, periods, locks, dayRates, n - 1, k, week);
      assert week < boundaries[k + 1] <= boundaries[n - 1];
    }
    if last.Some? {
      FindPeriodAppend(before, last.value, week);
    }
  }

  lemma NothingYet(pieces: seq<Period>, boundaries: seq<int>, n: nat, week: int)
    requires n < |boundaries| && PiecesUpTo(pieces, boundaries, n) && boundaries[n] <= week
    ensures FindPeriod(pieces, week) == None
  {
    FindPeriodIn(pieces, week);
  }

  lemma {:induction false} FindPeriodSame(periods: seq<Period>, v: int, w: int)
    requires forall i :: 0 <= i < |periods| ==> (Spans(periods[i], v) <==> Spans(periods[i], w))
    ensures FindPeriod(periods, v) == FindPeriod(periods, w)
  {
    if periods == [] {
    } else {
      FindPeriodSame(periods[1..], v, w);
    }
  }

  lemma {:induction false} ActiveLocksSame(locks: seq<CapacityEdit>, v: int, w: int)
    requires forall i :: 0 <= i < |locks| ==> (IsActive(locks[i], v) <==> IsActive(locks[i], w))
    ensures ActiveLocks(locks, v) == ActiveLocks(locks, w)
  {
    if locks == [] {
    } else {
      ActiveLocksSame(locks[1..], v, w);
    }
  }

  lemma {:induction false} NoActiveLocks(locks: seq<CapacityEdit>, week: int)
    ensures ActiveLocks(locks, week) == [] <==> forall i :: 0 <= i < |locks| ==> !IsActive(locks[i], week)
  {
    if locks == [] {
    } else {
      NoActiveLocks(locks[1..], week);
      if forall i :: 0 <= i < |locks| ==> !IsActive(locks[i], week) {
        forall i | 0 <= i < |locks[1..]|
          ensures !IsActive(locks[1..][i], week)
        {
          assert locks[1..][i] == locks[i + 1];
        }
      }
      if ActiveLocks(locks, week) == [] {
        forall i | 0 <= i < |locks|
          ensures !IsActive(locks[i], week)
        {
          if i > 0 {
            assert locks[i] == locks[1..][i - 1];
          }
        }
      }
    }
  }

  lemma EdgeSameSide(boundaries: seq<int>, k: nat, week: int, edge: int)
    requires Increasing(boundaries) && k + 1 < |boundaries| && boundaries[k] <= week < boundaries[k + 1]
    requires edge in boundaries
    ensures edge <= week <==> edge <= boundaries[k]
  {
  }

  /** Between two boundaries nothing starts or stops. */
  lemma NothingInside(periods: seq<Period>, locks: seq<CapacityEdit>, k: nat, week: int)
    requires var boundaries := SortedBoundaries(periods, locks);
             k + 1 < |boundaries| && boundaries[k] <= week < boundaries[k + 1]
    ensures FindPeriod(periods, week) == FindPeriod(periods, SortedBoundaries(periods, locks)[k])
    ensures ActiveLocks(locks, week) == ActiveLocks(locks, SortedBoundaries(periods, locks)[k])
  {
    var boundaries := SortedBoundaries(periods, locks);
    BoundariesIncrease(periods, locks);
    forall i | 0 <= i < |periods|
      ensures Spans(periods[i], week) <==> Spans(periods[i], boundaries[k])
    {
      assert PeriodEdge(periods, periods[i].startWeek) && PeriodEdge(periods, periods[i].endWeek);
      EdgeSameSide(boundaries, k, week, periods[i].startWeek);
      EdgeSameSide(boundaries, k, week, periods[i].endWeek);
    }
    FindPeriodSame(periods, week, boundaries[k]);
    forall i | 0 <= i < |locks|
      ensures IsActive(locks[i], week) <==> IsActive(locks[i], boundaries[k])
    {
      assert LockEdge(locks, locks[i].startWeek) && LockEdge(locks, locks[i].endWeek);
      EdgeSameSide(boundaries, k, week, locks[i].startWeek);
      EdgeSameSide(boundaries, k, week, locks[i].endWeek);
    }
    ActiveLocksSame(locks, week, boundaries[k]);
  }

  lemma Locate(boundaries: seq<int>, week: int) returns (k: nat)
    requires Increasing(boundaries) && |boundaries| >= 2 && boundaries[0] <= week < boundaries[|boundaries| - 1]
    ensures k + 1 < |boundaries| && boundaries[k] <= week < boundaries[k + 1]
  {
    k := 0;
    while week >= boundaries[k + 1]
      invariant k + 1 < |boundaries| && boundaries[k] <= week
      decreases |boundaries| - k
    {
      k := k + 1;
    }
  }

  lemma LocksGiveTwoBoundaries(periods: seq<Period>, locks: seq<CapacityEdit>)
    requires locks != [] && ValidLocks(locks)
    ensures |SortedBoundaries(periods, locks)| >= 2
  {
  }

  /** A week outside all boundaries belongs to no period and no lock. */
  lemma OutsideAll(periods: seq<Period>, locks: seq<CapacityEdit>, week: int)
    requires Ordered(periods) && ValidLocks(locks)
    requires var boundaries := SortedBoundaries(periods, locks);
             |boundaries| >= 2 && !(boundaries[0] <= week < boundaries[|boundaries| - 1])
    ensures FindPeriod(periods, week).None? && ActiveLocks(locks, week) == []
  {
    var boundaries := SortedBoundaries(periods, locks);
    BoundariesIncrease(periods, locks);
    forall edge | edge in boundaries
      ensures boundaries[0] <= edge <= boundaries[|boundaries| - 1]
    {
      var j :| 0 <= j < |boundaries| && boundaries[j] == edge;
    }
    FindPeriodIn(periods, week);
    forall i | 0 <= i < |periods|
      ensures !Spans(periods[i], week)
    {
      assert PeriodEdge(periods, periods[i].startWeek) && PeriodEdge(periods, periods[i].endWeek);
    }
    forall i | 0 <= i < |locks|
      ensures !IsActive(locks[i], week)
    {
      assert LockEdge(locks, locks[i].startWeek) && LockEdge(locks, locks[i].endWeek);
    }
    NoActiveLocks(locks, week);
  }

  /** With locks to apply, the split is the pieces between the boundaries. */
  lemma SplitIsPieces(periods: seq<Period>, locks: seq<CapacityEdit>, dayRates: map<Id, nat>)
    requires ValidLocks(locks) && locks != []
    ensures Increasing(SortedBoundaries(periods, locks)) && |SortedBoundaries(periods, locks)| >= 2
    ensures var boundaries := SortedBoundaries(periods, locks);
            Split(periods, locks, dayRates) == Pieces(boundaries, periods, locks, dayRates, |boundaries| - 1)
  {
    BoundariesIncrease(periods, locks);
    LocksGiveTwoBoundaries(periods, locks);
  }

  /** What a split holds in one week: nothing, or the resources of the week's source and locks. */
  ghost predicate SplitWeek(found: Option<Period>, periods: seq<Period>, locks: seq<CapacityEdit>, dayRates: map<Id, nat>, week: int) {
    var active := ActiveLocks(locks, week);
    if FindPeriod(periods, week).None? && active == [] then found == None
    else found.Some? && exists width: nat :: IsPieceOf(found.value, SourceResources(periods, week), active, dayRates, width)
  }

  ghost predicate IsPieceOf(piece: Period, resources: seq<RoleHeadcount>, active: seq<CapacityEdit>, dayRates: map<Id, nat>, width: nat) {
    piece.resources == PieceResources(WithLockIds(SourceIds(resources), active), resources, active, dayRates, width)
  }

  lemma PieceIsSplitWeek(periods: seq<Period>, locks: seq<CapacityEdit>, dayRates: map<Id, nat>,
                         startWeek: int, endWeek: int, index: nat, week: int)
    requires startWeek < endWeek
    requires FindPeriod(periods, week) == FindPeriod(periods, startWeek) && ActiveLocks(locks, week) == ActiveLocks(locks, startWeek)
    ensures SplitWeek(PieceAt(periods, locks, dayRates, startWeek, endWeek, index), periods, locks, dayRates, week)
  {
    var piece := PieceAt(periods, locks, dayRates, startWeek, endWeek, index);
    if piece.Some? {
      assert IsPieceOf(piece.value, SourceResources(periods, week), ActiveLocks(locks, week), dayRates, endWeek - startWeek);
    }
  }

  lemma NoPieceOutside(boundaries: seq<int>, periods: seq<Period>, locks: seq<CapacityEdit>, dayRates: map<Id, nat>, week: int)
    requires Increasing(boundaries) && |boundaries| >= 2
    requires !(boundaries[0] <= week < boundaries[|boundaries| - 1])
    ensures FindPeriod(Pieces(boundaries, periods, locks, dayRates, |boundaries| - 1), week) == None
  {
    var pieces := Pieces(boundaries, periods, locks, dayRates, |boundaries| - 1);
    PiecesOrdered(boundaries, periods, locks, dayRates, |boundaries| - 1);
    FindPeriodIn(pieces, week);
    forall i | 0 <= i < |pieces|
      ensures !Spans(pieces[i], week)
    {
    }
  }

  /** The week-by-week meaning of one split. */
  lemma SplitAtWeek(periods: seq<Period>, locks: seq<CapacityEdit>, dayRates: map<Id, nat>, week: int)
    requires Ordered(periods) && ValidLocks(locks) && locks != []
    ensures SplitWeek(FindPeriod(Split(periods, locks, dayRates), week), periods, locks, dayRates, week)
  {
    var boundaries := SortedBoundaries(periods, locks);
    BoundariesIncrease(periods, locks);
    LocksGiveTwoBoundaries(periods, locks);
    var n := |boundaries| - 1;
    if boundaries[0] <= week < boundaries[n] {
      var k := Locate(boundaries, week);
      var index := FindInPieces(boundaries, periods, locks, dayRates, n, k, week);
      NothingInside(periods, locks, k, week);
      PieceIsSplitWeek(periods, locks, dayRates, boundaries[k], boundaries[k + 1], index, week);
    } else {
      OutsideAll(periods, locks, week);
      NoPieceOutside(boundaries, periods, locks, dayRates, week);
    }
  }

  /**
   * Pointwise: where a lock of the role is active the plan carries the governing lock's
   * headcount, everywhere else exactly what it carried before.
   */
  lemma SplitHeadcount(periods: seq<Period>, locks: seq<CapacityEdit>, dayRates: map<Id, nat>, roleId: Id, week: int)
    requires Ordered(periods) && ValidLocks(locks)
    ensures HeadcountAt(Split(periods, locks, dayRates), roleId, week)
         == if GoverningLock(locks, roleId, week).Some? then Some(GoverningLock(locks, roleId, week).value.headcount)
            else HeadcountAt(periods, roleId, week)
  {
    if locks != [] {
      SplitAtWeek(periods, locks, dayRates, week);
      var found := FindPeriod(Split(periods, locks, dayRates), week);
      var active := ActiveLocks(locks, week);
      var resources := SourceResources(periods, week);
      if found.Some? {
        var width: nat :| IsPieceOf(found.value, resources, active, dayRates, width);
        PieceRole(resources, active, dayRates, width, roleId);
      }
    }
  }

  /** The split is again ordered and covers exactly the old periods and the lock windows. */
  lemma SplitCovers(periods: seq<Period>, locks: seq<CapacityEdit>, dayRates: map<Id, nat>)
    requires Ordered(periods) && ValidLocks(locks)
    ensures Ordered(Split(periods, locks, dayRates))
    ensures forall week :: FindPeriod(Split(periods, locks, dayRates), week).Some?
              <==> FindPeriod(periods, week).Some? || exists i :: 0 <= i < |locks| && IsActive(locks[i], week)
  {
    hide Pieces, SortedBoundaries, Increasing, ValidLocks, FindPeriod, Split, PiecesUpTo;
    if locks == [] {
      NothingToSplit(periods, dayRates);
    } else {
      SplitOrdered(periods, locks, dayRates);
      forall week
        ensures FindPeriod(Split(periods, locks, dayRates), week).Some?
           <==> FindPeriod(periods, week).Some? || exists i :: 0 <= i < |locks| && IsActive(locks[i], week)
      {
        SplitAtWeek(periods, locks, dayRates, week);
        NoActiveLocks(locks, week);
      }
    }
  }

  lemma NothingToSplit(periods: seq<Period>, dayRates: map<Id, nat>)
    ensures Split(periods, [], dayRates) == periods
  {
  }

  lemma SplitOrdered(periods: seq<Period>, locks: seq<CapacityEdit>, dayRates: map<Id, nat>)
    requires ValidLocks(locks) && locks != []
    ensures Ordered(Split(periods, locks, dayRates))
  {
    hide Pieces, SortedBoundaries, Increasing, ValidLocks, Split, Ordered;
    SplitIsPieces(periods, locks, dayRates);
    PiecesOrdered(SortedBoundaries(periods, locks), periods, locks, dayRates, |SortedBoundaries(periods, locks)| - 1);
  }

  // ── Applying the locks again ───────────────────────────────────────────────

  /** Inside a source period every piece survives, so its two edges are edges of the split. */
  lemma InnerPiece(boundaries: seq<int>, periods: seq<Period>, locks: seq<CapacityEdit>, dayRates: map<Id, nat>, k: nat)
    requires Increasing(boundaries) && k + 1 < |boundaries|
    requires FindPeriod(periods, boundaries[k]).Some?
    ensures var pieces := Pieces(boundaries, periods, locks, dayRates, |boundaries| - 1);
            PeriodEdge(pieces, boundaries[k]) && PeriodEdge(pieces, boundaries[k + 1])
  {
    var pieces := Pieces(boundaries, periods, locks, dayRates, |boundaries| - 1);
    var index := FindInPieces(boundaries, periods, locks, dayRates, |boundaries| - 1, k, boundaries[k]);
    FindPeriodIn(pieces, boundaries[k]);
    var piece := FindPeriod(pieces, boundaries[k]).value;
    assert piece in pieces && piece.startWeek == boundaries[k] && piece.endWeek == boundaries[k + 1];
  }

  lemma PeriodEdgesPieced(boundaries: seq<int>, periods: seq<Period>, locks: seq<CapacityEdit>, dayRates: map<Id, nat>, i: nat)
    requires Increasing(boundaries) && Ordered(periods) && i < |periods|
    requires periods[i].startWeek in boundaries && periods[i].endWeek in boundaries
    ensures |boundaries| >= 2
    ensures var pieces := Pieces(boundaries, periods, locks, dayRates, |boundaries| - 1);
            PeriodEdge(pieces, periods[i].startWeek) && PeriodEdge(pieces, periods[i].endWeek)
  {
    hide Pieces, PeriodEdge;
    var a :| 0 <= a < |boundaries| && boundaries[a] == periods[i].startWeek;
    var b :| 0 <= b < |boundaries| && boundaries[b] == periods[i].endWeek;
    assert a < b;
    // the pieces that start and end where the period does lie inside it
    FindPeriodAt(periods, i, boundaries[a]);
    InnerPiece(boundaries, periods, locks, dayRates, a);
    FindPeriodAt(periods, i, boundaries[b - 1]);
    InnerPiece(boundaries, periods, locks, dayRates, b - 1);
  }

  lemma EdgesAreBoundaries(periods: seq<Period>, locks: seq<CapacityEdit>, i: nat)
    requires i < |periods|
    ensures periods[i].startWeek in SortedBoundaries(periods, locks) && periods[i].endWeek in SortedBoundaries(periods, locks)
  {
    hide SortedBoundaries, Increasing;
    BoundariesIncrease(periods, locks);
    assert periods[i] in periods;
    assert PeriodEdge(periods, periods[i].startWeek) && PeriodEdge(periods, periods[i].endWeek);
  }

  lemma PieceEdges(periods: seq<Period>, locks: seq<CapacityEdit>, dayRates: map<Id, nat>, x: int)
    requires Ordered(periods) && ValidLocks(locks) && locks != []
    requires PeriodEdge(periods, x)
    ensures PeriodEdge(Split(periods, locks, dayRates), x)
  {
    hide SortedBoundaries, Pieces, Split, Increasing, ValidLocks, Ordered;
    var period :| period in periods && (period.startWeek == x || period.endWeek == x);
    var i :| 0 <= i < |periods| && periods[i] == period;
    hide PeriodEdge;
    SplitIsPieces(periods, locks, dayRates);
    EdgesAreBoundaries(periods, locks, i);
    PeriodEdgesPieced(SortedBoundaries(periods, locks), periods, locks, dayRates, i);
  }

  lemma EdgeIsBoundary(pieces: seq<Period>, boundaries: seq<int>, n: nat, x: int)
    requires n < |boundaries| && PiecesUpTo(pieces, boundaries, n) && PeriodEdge(pieces, x)
    ensures x in boundaries
  {
    var piece :| piece in pieces && (piece.startWeek == x || piece.endWeek == x);
    var i :| 0 <= i < |pieces| && pieces[i] == piece;
    assert PieceWithin(pieces[i], boundaries, n);
  }

  /** An edge of the split is an edge of the plan or of a lock, and the other way round. */
  lemma SameEdges(periods: seq<Period>, locks: seq<CapacityEdit>, dayRates: map<Id, nat>, x: int)
    requires Ordered(periods) && ValidLocks(locks) && locks != []
    ensures PeriodEdge(Split(periods, locks, dayRates), x) || LockEdge(locks, x) <==> PeriodEdge(periods, x) || LockEdge(locks, x)
  {
    hide PeriodEdge, LockEdge, SortedBoundaries, PiecesUpTo, ValidLocks, Ordered, Split, Increasing, Pieces;
    var once := Split(periods, locks, dayRates);
    if PeriodEdge(once, x) {
      var boundaries := SortedBoundaries(periods, locks);
      SplitIsPieces(periods, locks, dayRates);
      PiecesOrdered(boundaries, periods, locks, dayRates, |boundaries| - 1);
      EdgeIsBoundary(once, boundaries, |boundaries| - 1, x);
      BoundariesIncrease(periods, locks);
    } else if PeriodEdge(periods, x) {
      PieceEdges(periods, locks, dayRates, x);
    }
  }

  lemma SameBoundaries(periods: seq<Period>, locks: seq<CapacityEdit>, dayRates: map<Id, nat>)
    requires Ordered(periods) && ValidLocks(locks) && locks != []
    ensures SortedBoundaries(Split(periods, locks, dayRates), locks) == SortedBoundaries(periods, locks)
  {
    hide Split, SortedBoundaries, PeriodEdge, LockEdge, ValidLocks, Ordered, Increasing;
    var once := Split(periods, locks, dayRates);
    BoundariesIncrease(periods, locks);
    BoundariesIncrease(once, locks);
    forall x
      ensures PeriodEdge(once, x) || LockEdge(locks, x) <==> PeriodEdge(periods, x) || LockEdge(locks, x)
    {
      SameEdges(periods, locks, dayRates, x);
    }
    IncreasingUnique(SortedBoundaries(once, locks), SortedBoundaries(periods, locks));
  }

  /** Re-deriving a piece's resources from the piece itself gives the same list. */
  lemma PieceResourcesStable(resources: seq<RoleHeadcount>, active: seq<CapacityEdit>, dayRates: map<Id, nat>, width: nat)
    ensures var ids := WithLockIds(SourceIds(resources), active);
            var piece := PieceResources(ids, resources, active, dayRates, width);
            PieceResources(WithLockIds(SourceIds(piece), active), piece, active, dayRates, width) == piece
  {
    var ids := WithLockIds(SourceIds(resources), active);
    var piece := PieceResources(ids, resources, active, dayRates, width);
    SourceIdsAre(resources, "");
    WithLockIdsAre(SourceIds(resources), active, "");
    DistinctSourceIds(piece, ids);
    forall l | l in active
      ensures l.roleId in ids
    {
      WithLockIdsAre(SourceIds(resources), active, l.roleId);
    }
    WithLockIdsAre(ids, active, "");
    forall k | 0 <= k < |ids|
      ensures PieceHeadcount(piece, active, ids[k]) == PieceHeadcount(resources, active, ids[k])
    {
      FindDistinctRole(piece, k);
    }
  }

  lemma {:induction false} DistinctSourceIds(resources: seq<RoleHeadcount>, ids: seq<Id>)
    requires |resources| == |ids| && NoDuplicates(ids)
    requires forall k :: 0 <= k < |ids| ==> resources[k].roleId == ids[k]
    ensures SourceIds(resources) == ids
  {
    if ids == [] {
    } else {
      var last := |ids| - 1;
      DistinctSourceIds(resources[..last], ids[..last]);
      assert ids == ids[..last] + [ids[last]];
    }
  }

  /** A piece looked up from itself is itself. */
  lemma PieceFromPiece(periods: seq<Period>, once: seq<Period>, locks: seq<CapacityEdit>, dayRates: map<Id, nat>,
                       startWeek: int, endWeek: int, found: nat, index: nat)
    requires startWeek < endWeek
    requires FindPeriod(once, startWeek) == PieceAt(periods, locks, dayRates, startWeek, endWeek, found)
    ensures PieceAt(once, locks, dayRates, startWeek, endWeek, index) == PieceAt(periods, locks, dayRates, startWeek, endWeek, index)
  {
    PieceResourcesStable(SourceResources(periods, startWeek), ActiveLocks(locks, startWeek), dayRates, endWeek - startWeek);
  }

  ghost predicate SamePieceAt(boundaries: seq<int>, a: seq<Period>, b: seq<Period>, locks: seq<CapacityEdit>, dayRates: map<Id, nat>, k: nat)
    requires Increasing(boundaries) && k + 1 < |boundaries|
  {
    SamePieceBetween(a, b, locks, dayRates, boundaries[k], boundaries[k + 1])
  }

  ghost predicate SamePieceBetween(a: seq<Period>, b: seq<Period>, locks: seq<CapacityEdit>, dayRates: map<Id, nat>,
                                   startWeek: int, endWeek: int)
    requires startWeek < endWeek
  {
    forall index: nat :: SamePiece(a, b, locks, dayRates, startWeek, endWeek, index)
  }

  ghost predicate SamePiece(a: seq<Period>, b: seq<Period>, locks: seq<CapacityEdit>, dayRates: map<Id, nat>,
                            startWeek: int, endWeek: int, index: nat)
    requires startWeek < endWeek
  {
    PieceAt(a, locks, dayRates, startWeek, endWeek, index) == PieceAt(b, locks, dayRates, startWeek, endWeek, index)
  }

  lemma PieceStable(boundaries: seq<int>, periods: seq<Period>, locks: seq<CapacityEdit>, dayRates: map<Id, nat>, k: nat)
    requires Increasing(boundaries) && k + 1 < |boundaries|
    ensures SamePieceAt(boundaries, Pieces(boundaries, periods, locks, dayRates, |boundaries| - 1), periods, locks, dayRates, k)
  {
    var once := Pieces(boundaries, periods, locks, dayRates, |boundaries| - 1);
    var found := FindInPieces(boundaries, periods, locks, dayRates, |boundaries| - 1, k, boundaries[k]);
    var startWeek, endWeek := boundaries[k], boundaries[k + 1];
    forall index: nat
      ensures SamePiece(once, periods, locks, dayRates, startWeek, endWeek, index)
    {
      PieceFromPiece(periods, once, locks, dayRates, startWeek, endWeek, found, index);
    }
  }

  lemma PiecesStep(boundaries: seq<int>, periods: seq<Period>, locks: seq<CapacityEdit>, dayRates: map<Id, nat>, n: nat)
    requires Increasing(boundaries) && 0 < n < |boundaries|
    ensures boundaries[n - 1] < boundaries[n]
    ensures var before := Pieces(boundaries, periods, locks, dayRates, n - 1);
            var piece := PieceAt(periods, locks, dayRates, boundaries[n - 1], boundaries[n], |before|);
            Pieces(boundaries, periods, locks, dayRates, n) == if piece.None? then before else before + [piece.value]
  {
  }

  lemma SameAt(boundaries: seq<int>, a: seq<Period>, b: seq<Period>, locks: seq<CapacityEdit>, dayRates: map<Id, nat>, k: nat, index: nat)
    requires Increasing(boundaries) && k + 1 < |boundaries| && SamePieceAt(boundaries, a, b, locks, dayRates, k)
    ensures boundaries[k] < boundaries[k + 1]
    ensures PieceAt(a, locks, dayRates, boundaries[k], boundaries[k + 1], index)
         == PieceAt(b, locks, dayRates, boundaries[k], boundaries[k + 1], index)
  {
    hide PieceAt;
    assert SamePiece(a, b, locks, dayRates, boundaries[k], boundaries[k + 1], index);
  }

  lemma NoPieces(boundaries: seq<int>, periods: seq<Period>, locks: seq<CapacityEdit>, dayRates: map<Id, nat>)
    requires Increasing(boundaries)
    ensures Pieces(boundaries, periods, locks, dayRates, 0) == []
  {
  }

  lemma {:induction false} SamePieces(boundaries: seq<int>, a: seq<Period>, b: seq<Period>, locks: seq<CapacityEdit>,
                                      dayRates: map<Id, nat>, n: nat)
    requires Increasing(boundaries) && |boundaries| >= 2 && n < |boundaries|
    requires forall k :: 0 <= k < n ==> SamePieceAt(boundaries, a, b, locks, dayRates, k)
    ensures Pieces(boundaries, a, locks, dayRates, n) == Pieces(boundaries, b, locks, dayRates, n)
    decreases n
  {
    hide Increasing, SamePieceAt, Pieces, PieceAt;
    if n == 0 {
      NoPieces(boundaries, a, locks, dayRates);
      NoPieces(boundaries, b, locks, dayRates);
    } else {
      PiecesStep(boundaries, a, locks, dayRates, n);
      PiecesStep(boundaries, b, locks, dayRates, n);
      SamePieces(boundaries, a, b, locks, dayRates, n - 1);
      SameAt(boundaries, a, b, locks, dayRates, n - 1, |Pieces(boundaries, a, locks, dayRates, n - 1)|);
    }
  }

  /** Applying the same locks twice gives the same plan as applying them once. */
  lemma SplitIdempotent(periods: seq<Period>, locks: seq<CapacityEdit>, dayRates: map<Id, nat>)
    requires Ordered(periods) && ValidLocks(locks)
    ensures Split(Split(periods, locks, dayRates), locks, dayRates) == Split(periods, locks, dayRates)
  {
    if locks != [] {
      SameBoundaries(periods, locks, dayRates);
      LocksGiveTwoBoundaries(periods, locks);
      BoundariesIncrease(periods, locks);
      var boundaries := SortedBoundaries(periods, locks);
      forall k: nat | k < |boundaries| - 1
        ensures SamePieceAt(boundaries, Split(periods, locks, dayRates), periods, locks, dayRates, k)
      {
        PieceStable(boundaries, periods, locks, dayRates, k);
      }
      SamePieces(boundaries, Split(periods, locks, dayRates), periods, locks, dayRates, |boundaries| - 1);
    }
  }
}
