/**
 * The other views of one role's plan: trajectories of single people, the weekly headcount
 * map with its totals, and the merged role profile; and their agreement week by week.
 */
module PlanViews {
  import opened Common
  import opened PlanLayers
  import opened PlanSlots
  import Sorting

  // ── Trajectories ───────────────────────────────────────────────────────────

  datatype Trajectory = Trajectory(trajectoryIndex: nat, segments: seq<Window>)

  function SegmentsOf(trajectories: seq<Trajectory>, index: nat): seq<Window> {
    if trajectories == [] then []
    else if trajectories[|trajectories| - 1].trajectoryIndex == index then trajectories[|trajectories| - 1].segments
    else SegmentsOf(trajectories[..|trajectories| - 1], index)
  }

  /** Everything the trajectories carry in a week. */
  function TrajectoriesAt(trajectories: seq<Trajectory>, week: int): real {
    if trajectories == [] then 0.0
    else TrajectoriesAt(trajectories[..|trajectories| - 1], week) + PercentAt(trajectories[|trajectories| - 1].segments, week)
  }

  type ShareFamily = nat -> real -> real

  ghost predicate IsStack(trajectories: seq<Trajectory>, periods: seq<PlanPeriod>, shares: ShareFamily, count: nat) {
    && (forall k :: 0 <= k < |trajectories| ==> trajectories[k].trajectoryIndex < count && trajectories[k].segments != [])
    && (forall j, k :: 0 <= j < k < |trajectories| ==> trajectories[j].trajectoryIndex < trajectories[k].trajectoryIndex)
    && (forall index: nat :: index < count ==> IsLayer(SegmentsOf(trajectories, index), periods, shares(index)))
    && (forall index: nat :: index < count ==> SegmentsOf(trajectories, index) == Layer(periods, shares(index)))
    && (forall index: nat :: index < count ==> (MaximalWindows(SegmentsOf(trajectories, index)) <==> Unsplit(periods, shares(index))))
  }

  lemma {:induction false} SegmentsOfAbsent(trajectories: seq<Trajectory>, index: nat)
    requires forall k :: 0 <= k < |trajectories| ==> trajectories[k].trajectoryIndex != index
    ensures SegmentsOf(trajectories, index) == []
  {
    if trajectories == [] {
    } else {
      SegmentsOfAbsent(trajectories[..|trajectories| - 1], index);
    }
  }

  lemma StackAppend(trajectories: seq<Trajectory>, segments: seq<Window>, periods: seq<PlanPeriod>, shares: ShareFamily, t: nat)
    requires IsStack(trajectories, periods, shares, t)
    requires segments == Layer(periods, shares(t)) && IsLayer(segments, periods, shares(t))
    requires MaximalWindows(segments) <==> Unsplit(periods, shares(t))
    ensures IsStack(if segments == [] then trajectories else trajectories + [Trajectory(t, segments)], periods, shares, t + 1)
  {
    hide IsLayer, Layer, MaximalWindows, Unsplit;
    var next := if segments == [] then trajectories else trajectories + [Trajectory(t, segments)];
    SegmentsOfAbsent(trajectories, t);
    forall index: nat | index < t + 1
      ensures SegmentsOf(next, index) == if index == t then segments else SegmentsOf(trajectories, index)
    {
      if segments != [] {
        assert next[..|trajectories|] == trajectories;
      }
    }
  }

  method CollectTrajectories(sorted: seq<PlanPeriod>, count: nat, shares: ShareFamily) returns (trajectories: seq<Trajectory>)
    requires OrderedDisjoint(sorted)
    ensures IsStack(trajectories, sorted, shares, count)
  {
    trajectories := [];
    for t := 0 to count
      invariant IsStack(trajectories, sorted, shares, t)
    {
      var segments := BuildLayer(sorted, shares(t));
      StackAppend(trajectories, segments, sorted, shares, t);
      if segments != [] {
        trajectories := trajectories + [Trajectory(t, segments)];
      }
    }
  }

  function StackAt(trajectories: seq<Trajectory>, count: nat, week: int): real {
    if count == 0 then 0.0 else StackAt(trajectories, count - 1, week) + PercentAt(SegmentsOf(trajectories, count - 1), week)
  }

  lemma {:induction false} StackGrow(trajectories: seq<Trajectory>, last: Trajectory, count: nat, week: int)
    requires forall k :: 0 <= k < |trajectories| ==> trajectories[k].trajectoryIndex < last.trajectoryIndex
    ensures StackAt(trajectories + [last], count, week)
         == StackAt(trajectories, count, week) + if last.trajectoryIndex < count then PercentAt(last.segments, week) else 0.0
  {
    assert (trajectories + [last])[..|trajectories|] == trajectories;
    if count == 0 {
    } else {
      StackGrow(trajectories, last, count - 1, week);
      if count - 1 == last.trajectoryIndex {
        SegmentsOfAbsent(trajectories, count - 1);
      }
    }
  }

  /** Summing trajectory by trajectory or index by index is the same. */
  lemma {:induction false} StackIsTotal(trajectories: seq<Trajectory>, count: nat, week: int)
    requires forall k :: 0 <= k < |trajectories| ==> trajectories[k].trajectoryIndex < count
    requires forall j, k :: 0 <= j < k < |trajectories| ==> trajectories[j].trajectoryIndex < trajectories[k].trajectoryIndex
    ensures StackAt(trajectories, count, week) == TrajectoriesAt(trajectories, week)
  {
    if trajectories == [] {
      EmptyStack(count, week);
    } else {
      var last := |trajectories| - 1;
      StackIsTotal(trajectories[..last], count, week);
      StackGrow(trajectories[..last], trajectories[last], count, week);
      assert trajectories == trajectories[..last] + [trajectories[last]];
    }
  }

  lemma {:induction false} EmptyStack(count: nat, week: int)
    ensures StackAt([], count, week) == 0.0
  {
    if count == 0 {
    } else {
      EmptyStack(count - 1, week);
    }
  }

  /** Whole units of a four-unit trajectory, for a plan that never exceeds maxUnits. */
  function ActiveUnits(headcount: real, index: nat, maxUnits: nat): nat {
    Max(0, Min(Min(4, maxUnits - 4 * index), QuantizeUnits(headcount) - 4 * index))
  }

  function AlignedShares(maxUnits: nat): ShareFamily {
    index => headcount => Round2(ActiveUnits(headcount, index, maxUnits) as real / 4.0 * 100.0)
  }

  function ExactShares(): ShareFamily {
    index => ShareOfSlot(index)
  }

  lemma AlignedShareValue(maxUnits: nat, index: nat, headcount: real)
    ensures AlignedShares(maxUnits)(index)(headcount) == UnitPercent(ActiveUnits(headcount, index, maxUnits))
  {
    RoundWholeQuanta(ActiveUnits(headcount, index, maxUnits));
  }

  lemma AlignedSeparated(periods: seq<PlanPeriod>, maxUnits: nat, index: nat)
    ensures Separated(periods, AlignedShares(maxUnits)(index))
  {
    forall i, j | 0 <= i < |periods| && 0 <= j < |periods|
      ensures Close(AlignedShares(maxUnits)(index)(periods[i].headcount), AlignedShares(maxUnits)(index)(periods[j].headcount)) ==>
                AlignedShares(maxUnits)(index)(periods[i].headcount) == AlignedShares(maxUnits)(index)(periods[j].headcount)
      ensures AlignedShares(maxUnits)(index)(periods[i].headcount) == 0.0
           || AlignedShares(maxUnits)(index)(periods[i].headcount) > FLOAT_EPSILON
    {
      AlignedShareValue(maxUnits, index, periods[i].headcount);
      AlignedShareValue(maxUnits, index, periods[j].headcount);
    }
  }

  function TrajectoryCount(maxUnits: nat): nat {
    (maxUnits + 3) / 4
  }

  /** The stack that the source builds, by the plan's own alignment. */
  ghost predicate IsTrajectoryStack(trajectories: seq<Trajectory>, sorted: seq<PlanPeriod>) {
    if IsQuarterAligned(sorted)
    then IsStack(trajectories, sorted, AlignedShares(MaxUnits(sorted)), TrajectoryCount(MaxUnits(sorted)))
    else IsStack(trajectories, sorted, ExactShares(), MaxSlots(sorted))
  }

  method MaterializeResourceTrajectories(periods: seq<PlanPeriod>) returns (trajectories: seq<Trajectory>)
    requires ValidPlan(periods)
    ensures IsTrajectoryStack(trajectories, SortedPeriods(periods))
  {
    var sorted := SortedPeriods(periods);
    if !IsQuarterAligned(sorted) {
      trajectories := CollectTrajectories(sorted, MaxSlots(sorted), ExactShares());
    } else {
      trajectories := CollectTrajectories(sorted, TrajectoryCount(MaxUnits(sorted)), AlignedShares(MaxUnits(sorted)));
    }
  }

  /** The units of a plan that fall to one four-unit trajectory. */
  function FourUnits(units: nat, index: nat): nat {
    Max(0, Min(4, units - 4 * index))
  }

  lemma AlignedLayerAt(trajectories: seq<Trajectory>, sorted: seq<PlanPeriod>, index: nat, week: int)
    requires IsStack(trajectories, sorted, AlignedShares(MaxUnits(sorted)), TrajectoryCount(MaxUnits(sorted)))
    requires index < TrajectoryCount(MaxUnits(sorted))
    ensures PercentAt(SegmentsOf(trajectories, index), week)
         == UnitPercent(FourUnits(UnitsIn(sorted, week), index))
  {
    var maxUnits := MaxUnits(sorted);
    AlignedSeparated(sorted, maxUnits, index);
    LayerExact(SegmentsOf(trajectories, index), sorted, AlignedShares(maxUnits)(index), week);
    HeadcountMember(sorted, week);
    MaxUnitsBounds(sorted);
    var headcount := HeadcountIn(sorted, week);
    if headcount.Some? {
      AlignedShareValue(maxUnits, index, headcount.value);
    }
  }

  lemma {:induction false} FourUnitsStack(trajectories: seq<Trajectory>, units: nat, count: nat, week: int)
    requires forall index: nat :: index < count ==>
               PercentAt(SegmentsOf(trajectories, index), week) == UnitPercent(FourUnits(units, index))
    ensures StackAt(trajectories, count, week) == UnitPercent(Min(4 * count, units))
  {
    if count == 0 {
    } else {
      FourUnitsStack(trajectories, units, count - 1, week);
      assert Min(4 * count, units) == Min(4 * (count - 1), units) + FourUnits(units, count - 1);
    }
  }

  lemma AlignedStackAt(trajectories: seq<Trajectory>, sorted: seq<PlanPeriod>, count: nat, week: int)
    requires IsStack(trajectories, sorted, AlignedShares(MaxUnits(sorted)), TrajectoryCount(MaxUnits(sorted)))
    requires count <= TrajectoryCount(MaxUnits(sorted))
    ensures StackAt(trajectories, count, week) == UnitPercent(Min(4 * count, UnitsIn(sorted, week)))
  {
    forall index: nat | index < count
      ensures PercentAt(SegmentsOf(trajectories, index), week) == UnitPercent(FourUnits(UnitsIn(sorted, week), index))
    {
      AlignedLayerAt(trajectories, sorted, index, week);
    }
    FourUnitsStack(trajectories, UnitsIn(sorted, week), count, week);
  }

  lemma ExactLayerAt(trajectories: seq<Trajectory>, sorted: seq<PlanPeriod>, index: nat, week: int)
    requires IsStack(trajectories, sorted, ExactShares(), MaxSlots(sorted)) && index < MaxSlots(sorted)
    ensures Close(PercentAt(SegmentsOf(trajectories, index), week), ShareIn(sorted, ShareOfSlot(index), week))
  {
    hide IsLayer, Layer, PercentAt, SegmentsOf, SlotShare;
    var share := ExactShares()(index);
    assert share == ShareOfSlot(index);
    SlotShareNonNegative(sorted, index, week);
    LayerError(SegmentsOf(trajectories, index), sorted, share, week);
  }

  lemma WithinStep(a: real, b: real, x: real, y: real, slots: nat)
    requires Within(a, b, slots) && Close(x, y)
    ensures Within(a + x, b + y, slots + 1)
  {
  }

  lemma SharesStep(sorted: seq<PlanPeriod>, count: nat, week: int)
    requires count > 0
    ensures SharesBelowIn(sorted, count, week) == SharesBelowIn(sorted, count - 1, week) + ShareIn(sorted, ShareOfSlot(count - 1), week)
  {
  }

  /** The exact stack's running sum stays within one tolerance per slot of its shares. */
  lemma {:induction false} ExactStackAt(trajectories: seq<Trajectory>, sorted: seq<PlanPeriod>, count: nat, week: int)
    requires IsStack(trajectories, sorted, ExactShares(), MaxSlots(sorted)) && count <= MaxSlots(sorted)
    ensures Within(StackAt(trajectories, count, week), SharesBelowIn(sorted, count, week), count)
  {
    hide IsStack, PercentAt, SegmentsOf, ShareIn, MaxSlots, SlotShare, HeadcountIn;
    if count == 0 {
    } else {
      hide SharesBelowIn, Within, Close;
      ExactStackAt(trajectories, sorted, count - 1, week);
      ExactLayerAt(trajectories, sorted, count - 1, week);
      SharesStep(sorted, count, week);
      WithinStep(StackAt(trajectories, count - 1, week), SharesBelowIn(sorted, count - 1, week),
                 PercentAt(SegmentsOf(trajectories, count - 1), week), ShareIn(sorted, ShareOfSlot(count - 1), week), count - 1);
    }
  }

  /** Trajectory conservation: exact in quarters when aligned, else within one tolerance per person-slot. */
  lemma TrajectoriesConserve(trajectories: seq<Trajectory>, sorted: seq<PlanPeriod>, week: int)
    requires IsTrajectoryStack(trajectories, sorted)
    ensures IsQuarterAligned(sorted) ==> TrajectoriesAt(trajectories, week) == UnitPercent(UnitsIn(sorted, week))
    ensures !IsQuarterAligned(sorted) ==>
              Within(TrajectoriesAt(trajectories, week), PlannedPercent(sorted, week), MaxSlots(sorted))
  {
    if IsQuarterAligned(sorted) {
      var count := TrajectoryCount(MaxUnits(sorted));
      AlignedStackAt(trajectories, sorted, count, week);
      StackIsTotal(trajectories, count, week);
      HeadcountMember(sorted, week);
      MaxUnitsBounds(sorted);
    } else {
      ExactStackAt(trajectories, sorted, MaxSlots(sorted), week);
      StackIsTotal(trajectories, MaxSlots(sorted), week);
      AllSharesCarryHeadcount(sorted, week);
    }
  }

  function TrajectoryShare(sorted: seq<PlanPeriod>, index: nat): real -> real {
    if IsQuarterAligned(sorted) then AlignedShares(MaxUnits(sorted))(index) else ExactShares()(index)
  }

  function TrajectorySlots(sorted: seq<PlanPeriod>): nat {
    if IsQuarterAligned(sorted) then TrajectoryCount(MaxUnits(sorted)) else MaxSlots(sorted)
  }

  /** In every week a trajectory carries what the run of the week's period holds, and it is maximal unless an empty period splits a run. */
  lemma TrajectoryHolds(trajectories: seq<Trajectory>, sorted: seq<PlanPeriod>, index: nat, week: int)
    requires OrderedDisjoint(sorted) && IsTrajectoryStack(trajectories, sorted) && index < TrajectorySlots(sorted)
    ensures PercentAt(SegmentsOf(trajectories, index), week) == HeldIn(sorted, TrajectoryShare(sorted, index), week)
    ensures MaximalWindows(SegmentsOf(trajectories, index)) <==> Unsplit(sorted, TrajectoryShare(sorted, index))
  {
    hide Layer, Unsplit, MaximalWindows;
    LayerHolds(sorted, TrajectoryShare(sorted, index), week);
  }

  /**
   * The staircase: a trajectory is in use only in weeks where the one below it is full, exactly so when
   * the shares of the lower one are separated, as they always are in quarters and in whole hundredths.
   */
  lemma TrajectoryStaircase(trajectories: seq<Trajectory>, sorted: seq<PlanPeriod>, index: nat, week: int)
    requires IsTrajectoryStack(trajectories, sorted)
    requires index + 1 < TrajectorySlots(sorted)
    requires PercentAt(SegmentsOf(trajectories, index + 1), week) > 0.0
    ensures Separated(sorted, TrajectoryShare(sorted, index)) ==> PercentAt(SegmentsOf(trajectories, index), week) == 100.0
    ensures IsQuarterAligned(sorted) ==> PercentAt(SegmentsOf(trajectories, index), week) == 100.0
    ensures Close(PercentAt(SegmentsOf(trajectories, index), week), 100.0)
  {
    if IsQuarterAligned(sorted) {
      AlignedLayerAt(trajectories, sorted, index, week);
      AlignedLayerAt(trajectories, sorted, index + 1, week);
    } else {
      ExactStaircase(trajectories, sorted, index, week);
    }
  }

  lemma ExactStaircase(trajectories: seq<Trajectory>, sorted: seq<PlanPeriod>, index: nat, week: int)
    requires IsTrajectoryStack(trajectories, sorted) && !IsQuarterAligned(sorted) && index + 1 < MaxSlots(sorted)
    requires PercentAt(SegmentsOf(trajectories, index + 1), week) > 0.0
    ensures Close(PercentAt(SegmentsOf(trajectories, index), week), 100.0)
    ensures Separated(sorted, ExactShares()(index)) ==> PercentAt(SegmentsOf(trajectories, index), week) == 100.0
  {
    var lower, upper := ExactShares()(index), ExactShares()(index + 1);
    assert TracksShare(SegmentsOf(trajectories, index + 1), sorted, upper, week);
    assert ShareIn(sorted, upper, week) > FLOAT_EPSILON;
    assert ShareIn(sorted, lower, week) == 100.0;
    LayerError(SegmentsOf(trajectories, index), sorted, lower, week);
    if Separated(sorted, lower) {
      LayerExact(SegmentsOf(trajectories, index), sorted, lower, week);
    }
  }

  // ── The weekly map ─────────────────────────────────────────────────────────

  /** The map holds exactly the plan's weeks. */
  ghost predicate IsWeeklyMap(weekly: map<int, real>, periods: seq<PlanPeriod>) {
    forall week ::
      && (week in weekly <==> HeadcountIn(periods, week).Some?)
      && (week in weekly ==> HeadcountIn(periods, week) == Some(weekly[week]))
  }

  ghost function SumOver(weekly: map<int, real>, weeks: set<int>): real
    requires weeks <= weekly.Keys
  {
    if exists week :: week in weeks then
      var week :| week in weeks;
      weekly[week] + SumOver(weekly, weeks - {week})
    else 0.0
  }

  lemma SumOverRemove(weekly: map<int, real>, weeks: set<int>, week: int)
    requires weeks <= weekly.Keys && week in weeks
    ensures SumOver(weekly, weeks) == weekly[week] + SumOver(weekly, weeks - {week})
  {
    var picked :| picked in weeks && SumOver(weekly, weeks) == weekly[picked] + SumOver(weekly, weeks - {picked});
    if picked != week {
      SumOverRemove(weekly, weeks - {picked}, week);
      assert picked in weeks - {week};
      SumOverRemove(weekly, weeks - {week}, picked);
      assert weeks - {picked} - {week} == weeks - {week} - {picked};
    }
  }

  lemma SumOverSame(a: map<int, real>, b: map<int, real>, weeks: set<int>)
    requires weeks <= a.Keys && weeks <= b.Keys && forall week :: week in weeks ==> a[week] == b[week]
    ensures SumOver(a, weeks) == SumOver(b, weeks)
  {
    if exists week :: week in weeks {
      var week :| week in weeks;
      SumOverRemove(a, weeks, week);
      SumOverRemove(b, weeks, week);
      SumOverSame(a, b, weeks - {week});
    }
  }

  /** The sum of the whole weekly map. */
  ghost function WeeklySum(weekly: map<int, real>): real {
    SumOver(weekly, weekly.Keys)
  }

  lemma WeeklySumAdd(weekly: map<int, real>, week: int, headcount: real)
    requires week !in weekly
    ensures WeeklySum(weekly[week := headcount]) == WeeklySum(weekly) + headcount
  {
    var added := weekly[week := headcount];
    SumOverRemove(added, added.Keys, week);
    assert added.Keys - {week} == weekly.Keys;
    SumOverSame(added, weekly, weekly.Keys);
  }
}
