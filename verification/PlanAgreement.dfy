/** Materialising one role of a plan, the merged role profile, and how all views agree. */
module PlanAgreement {
  import opened Common
  import opened PlanLayers
  import opened PlanSlots
  import opened PlanViews
  import DraftLocks
  import Sorting

  // ── One role of a plan ─────────────────────────────────────────────────────

  datatype PlanEntry = PlanEntry(resourceTypeId: string, headcount: real)

  datatype PlanInput = PlanInput(periodIndex: int, startWeek: int, endWeek: int, entries: seq<PlanEntry>)

  datatype MaterializedRole = MaterializedRole(
    totalDays: real,
    weeklyHeadcount: map<int, real>,
    slotWindows: seq<Window>,
    trajectories: seq<Trajectory>,
    startWeek: Option<int>,
    endWeek: Option<int>)

  function EntryHeadcount(entries: seq<PlanEntry>, resourceTypeId: string): real {
    if entries == [] then 0.0
    else if entries[0].resourceTypeId == resourceTypeId then entries[0].headcount
    else EntryHeadcount(entries[1..], resourceTypeId)
  }

  /** The role's own periods: its first entry of each period, nothing where it has none. */
  function RolePeriods(plan: seq<PlanInput>, resourceTypeId: string): (r: seq<PlanPeriod>)
    ensures |r| == |plan|
  {
    seq(|plan|, i requires 0 <= i < |plan| =>
      PlanPeriod(plan[i].periodIndex, plan[i].startWeek, plan[i].endWeek, EntryHeadcount(plan[i].entries, resourceTypeId)))
  }

  ghost predicate IsFirstWeek(week: Option<int>, weekly: map<int, real>) {
    if weekly == map[] then week == None
    else week.Some? && week.value in weekly && forall w :: w in weekly ==> week.value <= w
  }

  ghost predicate IsLastWeek(week: Option<int>, weekly: map<int, real>) {
    if weekly == map[] then week == None
    else week.Some? && week.value in weekly && forall w :: w in weekly ==> w <= week.value
  }

  /** Writing one period's weeks into the map. */
  method AddPeriodWeeks(weekly: map<int, real>, period: PlanPeriod) returns (next: map<int, real>)
    ensures forall week :: week in next <==> week in weekly || InPeriod(period, week)
    ensures forall week :: week in next ==> next[week] == if InPeriod(period, week) then period.headcount else weekly[week]
    ensures (forall week :: InPeriod(period, week) ==> week !in weekly) ==>
              WeeklySum(next) == WeeklySum(weekly) + period.headcount * Max(0, period.endWeek - period.startWeek) as real
  {
    hide WeeklySum;
    next := weekly;
    var week := period.startWeek;
    ghost var disjoint := forall w :: InPeriod(period, w) ==> w !in weekly;
    while week < period.endWeek
      invariant period.startWeek <= week <= Max(period.startWeek, period.endWeek)
      invariant forall w :: w in next <==> w in weekly || (InPeriod(period, w) && w < week)
      invariant forall w :: w in next ==> next[w] == if InPeriod(period, w) && w < week then period.headcount else weekly[w]
      invariant disjoint ==> WeeklySum(next) == WeeklySum(weekly) + period.headcount * (week - period.startWeek) as real
    {
      if disjoint {
        WeeklySumAdd(next, week, period.headcount);
        OneWeekMore(period.headcount, week - period.startWeek);
      }
      next := next[week := period.headcount];
      week := week + 1;
    }
    assert Max(0, period.endWeek - period.startWeek) == week - period.startWeek;
  }

  lemma OneWeekMore(headcount: real, weeks: int)
    ensures headcount * (weeks + 1) as real == headcount * weeks as real + headcount
  {
  }

  /** Any two periods that share a week are the same one. */
  ghost predicate PairwiseDisjoint(periods: seq<PlanPeriod>) {
    forall i, j, week :: 0 <= i < j < |periods| && InPeriod(periods[i], week) ==> !InPeriod(periods[j], week)
  }

  method WeeklyHeadcount(periods: seq<PlanPeriod>) returns (weekly: map<int, real>, totalDays: real)
    ensures IsWeeklyMap(weekly, periods)
    ensures PairwiseDisjoint(periods) ==> totalDays == 5.0 * WeeklySum(weekly)
  {
    weekly, totalDays := map[], 0.0;
    for i := 0 to |periods|
      invariant IsWeeklyMap(weekly, periods[..i])
      invariant PairwiseDisjoint(periods) ==> totalDays == 5.0 * WeeklySum(weekly)
    {
      var period := periods[i];
      var durationWeeks := Max(0, period.endWeek - period.startWeek);
      if PairwiseDisjoint(periods) {
        forall week | InPeriod(period, week)
          ensures week !in weekly
        {
          HeadcountMember(periods[..i], week);
        }
      }
      totalDays := totalDays + Days(period.headcount, durationWeeks);
      weekly := AddPeriodWeeks(weekly, period);
      forall week
        ensures HeadcountIn(periods[..i + 1], week)
             == if InPeriod(period, week) then Some(period.headcount) else HeadcountIn(periods[..i], week)
      {
        HeadcountStep(periods, i, week);
      }
    }
    assert periods[..|periods|] == periods;
  }

  function Days(headcount: real, weeks: int): real {
    headcount * weeks as real * 5.0
  }

  method FirstAndLast(weekly: map<int, real>) returns (first: Option<int>, last: Option<int>)
    ensures IsFirstWeek(first, weekly) && IsLastWeek(last, weekly)
  {
    first, last := None, None;
    var remaining := weekly.Keys;
    while exists week :: week in remaining
      invariant remaining <= weekly.Keys
      invariant first.Some? <==> last.Some?
      invariant first.None? ==> remaining == weekly.Keys
      invariant first.Some? ==>
                  && first.value in weekly && last.value in weekly
                  && forall w :: w in weekly && w !in remaining ==> first.value <= w <= last.value
      decreases |remaining|
    {
      var week :| week in remaining;
      first := Some(if first.Some? then Min(first.value, week) else week);
      last := Some(if last.Some? then Max(last.value, week) else week);
      remaining := remaining - {week};
    }
  }

  /** The plan's own order does not matter to what it says of a week. */
  lemma SortedSaysTheSame(periods: seq<PlanPeriod>, week: int)
    requires ValidPlan(periods)
    ensures HeadcountIn(SortedPeriods(periods), week) == HeadcountIn(periods, week)
  {
    var sorted := SortedPeriods(periods);
    HeadcountMember(periods, week);
    HeadcountMember(sorted, week);
    forall period
      ensures period in sorted <==> period in periods
    {
      Sorting.SortMembers(periods, ByPeriodIndex, period);
    }
    if HeadcountIn(periods, week).Some? {
      var i :| 0 <= i < |periods| && InPeriod(periods[i], week) && HeadcountIn(periods, week) == Some(periods[i].headcount);
      assert periods[i] in sorted;
      var k :| 0 <= k < |sorted| && sorted[k] == periods[i];
      var j :| 0 <= j < |sorted| && InPeriod(sorted[j], week) && HeadcountIn(sorted, week) == Some(sorted[j].headcount);
    } else {
      forall j | 0 <= j < |sorted|
        ensures !InPeriod(sorted[j], week)
      {
        assert sorted[j] in periods;
      }
    }
  }

  ghost predicate IsMaterialized(role: MaterializedRole, periods: seq<PlanPeriod>) {
    && IsWeeklyMap(role.weeklyHeadcount, periods)
    && (PairwiseDisjoint(periods) ==> role.totalDays == 5.0 * WeeklySum(role.weeklyHeadcount))
    && IsFirstWeek(role.startWeek, role.weeklyHeadcount) && IsLastWeek(role.endWeek, role.weeklyHeadcount)
    && IsTrajectoryStack(role.trajectories, SortedPeriods(periods))
    && IsSlotPlan(role.slotWindows, periods)
  }

  /** What the slot windows promise for a plan. */
  ghost predicate IsSlotPlan(windows: seq<Window>, periods: seq<PlanPeriod>) {
    && PersonSized(windows)
    && (IsQuarterAligned(periods) ==>
          forall week :: PercentAt(windows, week) == UnitPercent(UnitsIn(SortedPeriods(periods), week)))
    && (!IsQuarterAligned(periods) ==> windows == ExactSlotWindows(periods))
    && (!IsQuarterAligned(periods) ==>
          forall week :: Within(PercentAt(windows, week), PlannedPercent(SortedPeriods(periods), week), MaxSlots(SortedPeriods(periods))))
  }

  method MaterializeRolePeriods(periods: seq<PlanPeriod>) returns (role: MaterializedRole)
    requires ValidPlan(periods)
    ensures IsMaterialized(role, periods)
  {
    var trajectories := MaterializeResourceTrajectories(periods);
    var weekly, totalDays := WeeklyHeadcount(periods);
    var slotWindows := DeriveSlotWindows(periods);
    var first, last := FirstAndLast(weekly);
    role := MaterializedRole(totalDays, weekly, slotWindows, trajectories, first, last);
  }

  method MaterializeCapacityPlanResources(plan: seq<PlanInput>, resourceTypeIds: seq<string>)
    returns (materialized: map<string, MaterializedRole>)
    requires forall id :: id in resourceTypeIds ==> ValidPlan(RolePeriods(plan, id))
    ensures forall id :: id in materialized <==> id in resourceTypeIds
    ensures forall id :: id in materialized ==> IsMaterialized(materialized[id], RolePeriods(plan, id))
  {
    hide IsMaterialized, ValidPlan, RolePeriods;
    materialized := map[];
    for i := 0 to |resourceTypeIds|
      invariant forall id :: id in materialized <==> id in resourceTypeIds[..i]
      invariant forall id :: id in materialized ==> IsMaterialized(materialized[id], RolePeriods(plan, id))
    {
      var id := resourceTypeIds[i];
      var role := MaterializeRolePeriods(RolePeriods(plan, id));
      materialized := materialized[id := role];
    }
  }

  // ── The merged role profile ────────────────────────────────────────────────

  function RolePercent(weekly: map<int, real>, week: int): real {
    if week in weekly then weekly[week] * 100.0 else 0.0
  }

  /** The profile's value in one week: nothing where negligible, else close to the map's own. */
  ghost predicate TracksWeek(segments: seq<Window>, weekly: map<int, real>, week: int) {
    if RolePercent(weekly, week) <= FLOAT_EPSILON then PercentAt(segments, week) == 0.0
    else Close(PercentAt(segments, week), RolePercent(weekly, week))
  }

  /** Every segment carries some week's own percentage, above the tolerance. */
  ghost predicate FromWeeks(segments: seq<Window>, weekly: map<int, real>) {
    forall k :: 0 <= k < |segments| ==>
      segments[k].percent > FLOAT_EPSILON && segments[k].percent == RolePercent(weekly, segments[k].startWeek)
  }

  ghost predicate IsRoleProfile(segments: seq<Window>, weekly: map<int, real>) {
    && OrderedWindows(segments) && MaximalWindows(segments) && FromWeeks(segments, weekly)
    && forall week :: TracksWeek(segments, weekly, week)
  }

  method SortedWeeks(weekly: map<int, real>) returns (weeks: seq<int>)
    ensures DraftLocks.Increasing(weeks)
    ensures forall week :: week in weeks <==> week in weekly
  {
    var unsorted: seq<int> := [];
    var remaining := weekly.Keys;
    while exists week :: week in remaining
      invariant remaining <= weekly.Keys
      invariant NoDuplicates(unsorted)
      invariant forall week :: week in unsorted <==> week in weekly && week !in remaining
      decreases |remaining|
    {
      var week :| week in remaining;
      unsorted := unsorted + [week];
      remaining := remaining - {week};
    }
    DraftLocks.DistinctSortIncreases(unsorted);
    weeks := Sorting.SortBy(unsorted, DraftLocks.AtMostInt);
  }

  /** After the first i weeks, nothing is said of later ones. */
  ghost predicate ProfileSoFar(segments: seq<Window>, weekly: map<int, real>, weeks: seq<int>, i: nat)
    requires i <= |weeks|
  {
    && OrderedWindows(segments) && MaximalWindows(segments) && FromWeeks(segments, weekly)
    && (forall k :: 0 <= k < |segments| ==> segments[k].endWeek in weeks[..i])
    && (forall week :: if week in weeks[..i] then TracksWeek(segments, weekly, week) else PercentAt(segments, week) == 0.0)
  }

  /** A finished run of close weeks, from weeks[first] to weeks[i - 1]. */
  ghost predicate IsRun(weekly: map<int, real>, weeks: seq<int>, first: nat, i: nat)
    requires first < i <= |weeks|
  {
    && RolePercent(weekly, weeks[first]) > FLOAT_EPSILON
    && (forall k :: first <= k < i ==>
          && weeks[k] == weeks[first] + (k - first)
          && RolePercent(weekly, weeks[k]) > FLOAT_EPSILON
          && Close(RolePercent(weekly, weeks[first]), RolePercent(weekly, weeks[k])))
  }

  /** A run may not be longer. */
  ghost predicate RunEnds(weekly: map<int, real>, weeks: seq<int>, first: nat, i: nat)
    requires first < i <= |weeks|
  {
    i < |weeks| ==>
      || weeks[i] > weeks[i - 1] + 1
      || !Close(RolePercent(weekly, weeks[i]), RolePercent(weekly, weeks[first]))
      || RolePercent(weekly, weeks[i]) <= FLOAT_EPSILON
  }

  /** The last segment ended for a reason, so the next one is not its continuation. */
  ghost predicate LastRunEnded(segments: seq<Window>, weekly: map<int, real>, weeks: seq<int>, i: nat)
    requires i <= |weeks|
  {
    segments != [] ==>
      forall k :: i <= k < |weeks| && weeks[k] == segments[|segments| - 1].endWeek + 1 && RolePercent(weekly, weeks[k]) > FLOAT_EPSILON ==>
        !Close(segments[|segments| - 1].percent, RolePercent(weekly, weeks[k]))
  }

  function RunWindow(weekly: map<int, real>, weeks: seq<int>, first: nat, i: nat): Window
    requires first < i <= |weeks|
  {
    Window(weeks[first], weeks[i - 1], RolePercent(weekly, weeks[first]))
  }

  lemma PushRunShape(segments: seq<Window>, weekly: map<int, real>, weeks: seq<int>, first: nat, i: nat)
    requires DraftLocks.Increasing(weeks) && first < i <= |weeks|
    requires ProfileSoFar(segments, weekly, weeks, first) && LastRunEnded(segments, weekly, weeks, first)
    requires IsRun(weekly, weeks, first, i)
    ensures var all := segments + [RunWindow(weekly, weeks, first, i)];
            && OrderedWindows(all) && MaximalWindows(all) && FromWeeks(all, weekly)
            && forall k :: 0 <= k < |all| ==> all[k].endWeek in weeks[..i]
    ensures forall k :: 0 <= k < |segments| ==> segments[k].endWeek < weeks[first]
  {
    var run := RunWindow(weekly, weeks, first, i);
    assert weeks[i - 1] == weeks[first] + (i - 1 - first);
    forall k | 0 <= k < |segments|
      ensures segments[k].endWeek < run.startWeek && segments[k].endWeek in weeks[..i]
    {
      var j :| 0 <= j < first && weeks[..first][j] == segments[k].endWeek;
      assert weeks[..i][j] == segments[k].endWeek;
    }
    assert weeks[..i][i - 1] == run.endWeek;
    MaximalAppend(segments, run);
  }

  lemma PushRunTracks(segments: seq<Window>, weekly: map<int, real>, weeks: seq<int>, first: nat, i: nat, week: int)
    requires DraftLocks.Increasing(weeks) && first < i <= |weeks|
    requires if week in weeks[..first] then TracksWeek(segments, weekly, week) else PercentAt(segments, week) == 0.0
    requires forall k :: 0 <= k < |segments| ==> segments[k].endWeek < weeks[first]
    requires IsRun(weekly, weeks, first, i)
    ensures var all := segments + [RunWindow(weekly, weeks, first, i)];
            if week in weeks[..i] then TracksWeek(all, weekly, week) else PercentAt(all, week) == 0.0
  {
    var run := RunWindow(weekly, weeks, first, i);
    PercentAppend(segments, [run], week);
    PercentOne(run, week);
    RunWeeks(weeks, first, i, week);
    if InWindow(run, week) {
      assert weeks[first + (week - weeks[first])] == week;
      PercentNone(segments, week);
    }
  }

  lemma PushRun(segments: seq<Window>, weekly: map<int, real>, weeks: seq<int>, first: nat, i: nat)
    requires DraftLocks.Increasing(weeks) && first < i <= |weeks|
    requires ProfileSoFar(segments, weekly, weeks, first) && LastRunEnded(segments, weekly, weeks, first)
    requires IsRun(weekly, weeks, first, i) && RunEnds(weekly, weeks, first, i)
    ensures var all := segments + [RunWindow(weekly, weeks, first, i)];
            ProfileSoFar(all, weekly, weeks, i) && LastRunEnded(all, weekly, weeks, i)
  {
    var run := RunWindow(weekly, weeks, first, i);
    var all := segments + [run];
    PushRunShape(segments, weekly, weeks, first, i);
    forall week
      ensures if week in weeks[..i] then TracksWeek(all, weekly, week) else PercentAt(all, week) == 0.0
    {
      PushRunTracks(segments, weekly, weeks, first, i, week);
    }
    forall k | i <= k < |weeks| && weeks[k] == run.endWeek + 1 && RolePercent(weekly, weeks[k]) > FLOAT_EPSILON
      ensures !Close(run.percent, RolePercent(weekly, weeks[k]))
    {
      assert weeks[i] <= weeks[k];
    }
  }

  lemma RunWeeks(weeks: seq<int>, first: nat, i: nat, week: int)
    requires DraftLocks.Increasing(weeks) && first < i <= |weeks|
    requires forall k :: first <= k < i ==> weeks[k] == weeks[first] + (k - first)
    ensures week in weeks[..i] <==> week in weeks[..first] || weeks[first] <= week <= weeks[i - 1]
    ensures weeks[first] <= week <= weeks[i - 1] ==> week !in weeks[..first]
  {
    assert weeks[i - 1] == weeks[first] + (i - 1 - first);
    if weeks[first] <= week <= weeks[i - 1] {
      var k := first + (week - weeks[first]);
      assert weeks[..i][k] == week;
    }
    if week in weeks[..i] {
      var k :| 0 <= k < i && weeks[..i][k] == week;
      if k < first {
        assert weeks[..first][k] == week;
      }
    }
    if week in weeks[..first] {
      var k :| 0 <= k < first && weeks[..first][k] == week;
      assert weeks[..i][k] == week;
    }
  }

  lemma SkipWeek(segments: seq<Window>, weekly: map<int, real>, weeks: seq<int>, i: nat)
    requires i < |weeks| && ProfileSoFar(segments, weekly, weeks, i) && LastRunEnded(segments, weekly, weeks, i)
    requires DraftLocks.Increasing(weeks) && RolePercent(weekly, weeks[i]) <= FLOAT_EPSILON
    ensures ProfileSoFar(segments, weekly, weeks, i + 1) && LastRunEnded(segments, weekly, weeks, i + 1)
  {
  }

  lemma NothingRead(weekly: map<int, real>, weeks: seq<int>)
    ensures ProfileSoFar([], weekly, weeks, 0) && LastRunEnded([], weekly, weeks, 0)
  {
  }

  lemma AllRead(segments: seq<Window>, weekly: map<int, real>, weeks: seq<int>)
    requires ProfileSoFar(segments, weekly, weeks, |weeks|) && forall week :: week in weeks <==> week in weekly
    ensures IsRoleProfile(segments, weekly)
  {
    assert weeks[..|weeks|] == weeks;
    forall week
      ensures TracksWeek(segments, weekly, week)
    {
      assert if week in weeks[..|weeks|] then TracksWeek(segments, weekly, week) else PercentAt(segments, week) == 0.0;
    }
  }

  method MaterializeRoleCapacitySegments(weekly: map<int, real>) returns (segments: seq<Window>)
    ensures IsRoleProfile(segments, weekly)
  {
    hide ProfileSoFar, LastRunEnded, IsRoleProfile;
    var weeks := SortedWeeks(weekly);
    segments := [];
    NothingRead(weekly, weeks);
    var i := 0;
    while i < |weeks|
      invariant 0 <= i <= |weeks|
      invariant ProfileSoFar(segments, weekly, weeks, i) && LastRunEnded(segments, weekly, weeks, i)
    {
      var startWeek := weeks[i];
      var percent := RolePercent(weekly, startWeek);
      if percent <= FLOAT_EPSILON {
        SkipWeek(segments, weekly, weeks, i);
        i := i + 1;
        continue;
      }
      ghost var first := i;
      var endWeek := startWeek;
      i := i + 1;
      while i < |weeks|
        invariant first < i <= |weeks| && endWeek == weeks[i - 1]
        invariant IsRun(weekly, weeks, first, i)
      {
        var nextPercent := RolePercent(weekly, weeks[i]);
        if weeks[i] > endWeek + 1 {
          break;
        }
        if !Close(nextPercent, percent) {
          break;
        }
        if nextPercent <= FLOAT_EPSILON {
          break;
        }
        endWeek := weeks[i];
        i := i + 1;
      }
      PushRun(segments, weekly, weeks, first, i);
      segments := segments + [Window(startWeek, endWeek, percent)];
    }
    AllRead(segments, weekly, weeks);
  }

  // ── Agreement ──────────────────────────────────────────────────────────────

  ghost predicate NonNegative(periods: seq<PlanPeriod>) {
    forall i :: 0 <= i < |periods| ==> periods[i].headcount >= 0.0
  }

  /** Every headcount is exactly a number of quarters. */
  ghost predicate ExactQuarters(periods: seq<PlanPeriod>) {
    forall i :: 0 <= i < |periods| ==>
      periods[i].headcount >= 0.0 && periods[i].headcount / 0.25 == (periods[i].headcount / 0.25).Floor as real
  }

  lemma WeeklyIsPlanned(weekly: map<int, real>, periods: seq<PlanPeriod>, week: int)
    requires ValidPlan(periods) && IsWeeklyMap(weekly, periods) && NonNegative(periods)
    ensures RolePercent(weekly, week) == PlannedPercent(SortedPeriods(periods), week) >= 0.0
    ensures week in weekly ==> exists i :: 0 <= i < |periods| && weekly[week] == periods[i].headcount
  {
    SortedSaysTheSame(periods, week);
    HeadcountMember(periods, week);
  }

  lemma AlignmentSurvivesSorting(periods: seq<PlanPeriod>)
    ensures IsQuarterAligned(SortedPeriods(periods)) <==> IsQuarterAligned(periods)
  {
    var sorted := SortedPeriods(periods);
    forall period
      ensures period in sorted <==> period in periods
    {
      Sorting.SortMembers(periods, ByPeriodIndex, period);
    }
    if IsQuarterAligned(periods) {
      forall i | 0 <= i < |sorted|
        ensures Close(sorted[i].headcount / 0.25, Round(sorted[i].headcount / 0.25) as real)
      {
        assert sorted[i] in periods;
      }
    }
    if IsQuarterAligned(sorted) {
      forall i | 0 <= i < |periods|
        ensures Close(periods[i].headcount / 0.25, Round(periods[i].headcount / 0.25) as real)
      {
        assert periods[i] in sorted;
      }
    }
  }

  /** The tolerance of one view: a quarter of one step when aligned, one step per person-slot otherwise. */
  ghost predicate Agrees(percent: real, periods: seq<PlanPeriod>, expected: real) {
    if IsQuarterAligned(periods) then RealAbs(percent - expected) <= 25.0 * FLOAT_EPSILON
    else Within(percent, expected, MaxSlots(SortedPeriods(periods)))
  }

  /** All views of one plan agree with the weekly map, and so with each other, in every week. */
  lemma ViewsAgree(role: MaterializedRole, profile: seq<Window>, periods: seq<PlanPeriod>, week: int)
    requires ValidPlan(periods) && NonNegative(periods)
    requires IsMaterialized(role, periods) && IsRoleProfile(profile, role.weeklyHeadcount)
    ensures Close(PercentAt(profile, week), RolePercent(role.weeklyHeadcount, week))
    ensures Agrees(PercentAt(role.slotWindows, week), periods, RolePercent(role.weeklyHeadcount, week))
    ensures Agrees(TrajectoriesAt(role.trajectories, week), periods, RolePercent(role.weeklyHeadcount, week))
  {
    var sorted := SortedPeriods(periods);
    WeeklyIsPlanned(role.weeklyHeadcount, periods, week);
    AlignmentSurvivesSorting(periods);
    TrajectoriesConserve(role.trajectories, sorted, week);
    assert TracksWeek(profile, role.weeklyHeadcount, week);
    if IsQuarterAligned(periods) {
      UnitsAreHeadcount(sorted, week);
      assert PercentAt(role.slotWindows, week) == UnitPercent(UnitsIn(sorted, week));
    } else {
      assert Within(PercentAt(role.slotWindows, week), PlannedPercent(sorted, week), MaxSlots(sorted));
    }
  }

  lemma ExactQuarterUnits(headcount: real)
    requires headcount >= 0.0 && headcount / 0.25 == (headcount / 0.25).Floor as real
    ensures 100.0 * headcount == UnitPercent(QuantizeUnits(headcount))
    ensures Close(headcount / 0.25, Round(headcount / 0.25) as real)
  {
    var quarters := (headcount / 0.25).Floor;
    assert (quarters as real + 0.5).Floor == quarters;
  }

  ghost predicate IsUnits(percent: real) {
    exists units: nat :: percent == UnitPercent(units)
  }

  lemma UnitsApart(m: nat, n: nat)
    requires m < n
    ensures UnitPercent(n) - UnitPercent(m) >= 25.0
  {
  }

  lemma CloseUnitsEqual(a: real, b: real)
    requires IsUnits(a) && IsUnits(b) && Close(a, b)
    ensures a == b
  {
    var m: nat :| a == UnitPercent(m);
    var n: nat :| b == UnitPercent(n);
    if m < n {
      UnitsApart(m, n);
    } else if n < m {
      UnitsApart(n, m);
    }
  }

  lemma SegmentOver(segments: seq<Window>, week: int) returns (k: nat)
    requires OrderedWindows(segments) && PercentAt(segments, week) != 0.0
    ensures k < |segments| && InWindow(segments[k], week) && PercentAt(segments, week) == segments[k].percent
  {
    if forall k :: 0 <= k < |segments| ==> !InWindow(segments[k], week) {
      PercentNone(segments, week);
    }
    k :| 0 <= k < |segments| && InWindow(segments[k], week);
    PercentSingle(segments, k, week);
  }

  lemma NegligibleUnits(percent: real)
    requires IsUnits(percent) && percent <= FLOAT_EPSILON
    ensures percent == 0.0
  {
  }

  lemma ExactProfileAt(profile: seq<Window>, weekly: map<int, real>, week: int)
    requires IsRoleProfile(profile, weekly)
    requires forall w :: IsUnits(RolePercent(weekly, w))
    ensures PercentAt(profile, week) == RolePercent(weekly, week)
  {
    assert TracksWeek(profile, weekly, week);
    assert IsUnits(RolePercent(weekly, week));
    if RolePercent(weekly, week) <= FLOAT_EPSILON {
      NegligibleUnits(RolePercent(weekly, week));
    } else {
      assert PercentAt(profile, week) != 0.0 by {
        if PercentAt(profile, week) == 0.0 {
          CloseUnitsEqual(0.0, RolePercent(weekly, week));
        }
      }
      var k := SegmentOver(profile, week);
      assert IsUnits(RolePercent(weekly, profile[k].startWeek));
      CloseUnitsEqual(profile[k].percent, RolePercent(weekly, week));
    }
  }

  /** On a plan of exact quarters every view gives back exactly 100 times the weekly map. */
  lemma QuarterPlansAgreeExactly(role: MaterializedRole, profile: seq<Window>, periods: seq<PlanPeriod>, week: int)
    requires ValidPlan(periods) && ExactQuarters(periods)
    requires IsMaterialized(role, periods) && IsRoleProfile(profile, role.weeklyHeadcount)
    ensures PercentAt(profile, week) == PercentAt(role.slotWindows, week) == TrajectoriesAt(role.trajectories, week)
         == RolePercent(role.weeklyHeadcount, week)
  {
    var sorted := SortedPeriods(periods);
    forall i | 0 <= i < |periods|
      ensures 100.0 * periods[i].headcount == UnitPercent(QuantizeUnits(periods[i].headcount))
      ensures Close(periods[i].headcount / 0.25, Round(periods[i].headcount / 0.25) as real)
    {
      ExactQuarterUnits(periods[i].headcount);
    }
    AlignmentSurvivesSorting(periods);
    TrajectoriesConserve(role.trajectories, sorted, week);
    assert PercentAt(role.slotWindows, week) == UnitPercent(UnitsIn(sorted, week));
    forall w
      ensures IsUnits(RolePercent(role.weeklyHeadcount, w))
    {
      if w in role.weeklyHeadcount {
        WeeklyIsPlanned(role.weeklyHeadcount, periods, w);
        var i :| 0 <= i < |periods| && role.weeklyHeadcount[w] == periods[i].headcount;
        assert RolePercent(role.weeklyHeadcount, w) == UnitPercent(QuantizeUnits(periods[i].headcount));
      } else {
        assert RolePercent(role.weeklyHeadcount, w) == UnitPercent(0);
      }
    }
    ExactProfileAt(profile, role.weeklyHeadcount, week);
    SortedSaysTheSame(periods, week);
    HeadcountMember(periods, week);
  }
}
