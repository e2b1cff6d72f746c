/**
 * The round trip of a plan: persist its slot windows, and ask whether the plan must still take over.
 * A slot keeps the percentage of the period that opened it, so it may drift from later periods by the
 * merging tolerance; the trip succeeds exactly when the drifts of no period add up to too much.
 */
module PlanRoundTrip {
  import opened Common
  import opened PlanLayers
  import opened PlanSlots
  import opened PlanViews
  import opened PlanAgreement
  import opened PlanFallback
  import Sorting

  // ── What the slots of a period hold ────────────────────────────────────────

  function RunPercent(periods: seq<PlanPeriod>, share: real -> real): real {
    var run := LastRun(periods, share);
    if run.Some? then run.value.percent else 0.0
  }

  /** What the last period's slots hold together. */
  function RunTotal(periods: seq<PlanPeriod>, slots: nat): real {
    if slots == 0 then 0.0 else RunTotal(periods, slots - 1) + RunPercent(periods, ShareOfSlot(slots - 1))
  }

  function HeldTotal(periods: seq<PlanPeriod>, slots: nat, week: int): real {
    if slots == 0 then 0.0 else HeldTotal(periods, slots - 1, week) + HeldIn(periods, ShareOfSlot(slots - 1), week)
  }

  lemma {:induction false} HeldInPeriod(periods: seq<PlanPeriod>, share: real -> real, i: nat, week: int)
    requires OrderedDisjoint(periods) && i < |periods| && InPeriod(periods[i], week)
    ensures HeldIn(periods, share, week) == RunPercent(periods[..i + 1], share)
  {
    var last := |periods| - 1;
    if i == last {
      assert periods[..i + 1] == periods;
    } else {
      HeldInPeriod(periods[..last], share, i, week);
      assert periods[..last][..i + 1] == periods[..i + 1];
    }
  }

  lemma {:induction false} HeldOutside(periods: seq<PlanPeriod>, share: real -> real, week: int)
    requires forall i :: 0 <= i < |periods| ==> !InPeriod(periods[i], week)
    ensures HeldIn(periods, share, week) == 0.0
  {
    if periods == [] {
    } else {
      HeldOutside(periods[..|periods| - 1], share, week);
    }
  }

  lemma {:induction false} TotalInPeriod(periods: seq<PlanPeriod>, slots: nat, i: nat, week: int)
    requires OrderedDisjoint(periods) && i < |periods| && InPeriod(periods[i], week)
    ensures HeldTotal(periods, slots, week) == RunTotal(periods[..i + 1], slots)
  {
    hide HeldIn, LastRun;
    if slots == 0 {
    } else {
      TotalInPeriod(periods, slots - 1, i, week);
      HeldInPeriod(periods, ShareOfSlot(slots - 1), i, week);
    }
  }

  lemma {:induction false} TotalOutside(periods: seq<PlanPeriod>, slots: nat, week: int)
    requires forall i :: 0 <= i < |periods| ==> !InPeriod(periods[i], week)
    ensures HeldTotal(periods, slots, week) == 0.0
  {
    hide HeldIn;
    if slots == 0 {
    } else {
      TotalOutside(periods, slots - 1, week);
      HeldOutside(periods, ShareOfSlot(slots - 1), week);
    }
  }

  lemma {:induction false} LayersHold(sorted: seq<PlanPeriod>, slots: nat, week: int)
    requires OrderedDisjoint(sorted)
    ensures PercentAt(SlotLayers(sorted, slots), week) == HeldTotal(sorted, slots, week)
  {
    hide Layer, HeldIn;
    if slots == 0 {
    } else {
      LayersHold(sorted, slots - 1, week);
      LayerHolds(sorted, ShareOfSlot(slots - 1), week);
      PercentAppend(SlotLayers(sorted, slots - 1), Layer(sorted, ShareOfSlot(slots - 1)), week);
    }
  }

  // ── Exactly which plans survive ────────────────────────────────────────────

  /** The percentage persisted for a period: its quarters, or what the runs of its slots hold. */
  function PersistedPercent(sorted: seq<PlanPeriod>, i: nat): real
    requires i < |sorted|
  {
    if IsQuarterAligned(sorted) then UnitPercent(QuantizeUnits(sorted[i].headcount))
    else RunTotal(sorted[..i + 1], MaxSlots(sorted))
  }

  /** No period's persisted headcount is further from the planned one than the tolerance. */
  predicate LittleDrift(sorted: seq<PlanPeriod>) {
    forall i :: 0 <= i < |sorted| && !IsEmpty(sorted[i]) ==> Close(PersistedPercent(sorted, i) / 100.0, sorted[i].headcount)
  }

  lemma PersistedInPeriod(role: MaterializedRole, periods: seq<PlanPeriod>, i: nat, week: int)
    requires ValidPlan(periods) && IsMaterialized(role, periods)
    requires i < |SortedPeriods(periods)| && InPeriod(SortedPeriods(periods)[i], week)
    ensures PercentAt(role.slotWindows, week) == PersistedPercent(SortedPeriods(periods), i)
    ensures PlannedHeadcount(role.weeklyHeadcount, week) == SortedPeriods(periods)[i].headcount
  {
    hide Sorting.SortBy, SlotLayers, HeldTotal, RunTotal, PercentAt, IsQuarterAligned;
    var sorted := SortedPeriods(periods);
    AlignmentSurvivesSorting(periods);
    SortedSaysTheSame(periods, week);
    HeadcountAtPeriod(sorted, i, week);
    if !IsQuarterAligned(sorted) {
      LayersHold(sorted, MaxSlots(sorted), week);
      SortKeepsPercent(SlotLayers(sorted, MaxSlots(sorted)), week);
      TotalInPeriod(sorted, MaxSlots(sorted), i, week);
    }
  }

  lemma HeadcountAtPeriod(periods: seq<PlanPeriod>, i: nat, week: int)
    requires OrderedDisjoint(periods) && i < |periods| && InPeriod(periods[i], week)
    ensures HeadcountIn(periods, week) == Some(periods[i].headcount)
  {
    HeadcountMember(periods, week);
    var j :| 0 <= j < |periods| && InPeriod(periods[j], week) && HeadcountIn(periods, week) == Some(periods[j].headcount);
    assert i == j;
  }

  lemma PersistedOutside(role: MaterializedRole, periods: seq<PlanPeriod>, week: int)
    requires ValidPlan(periods) && IsMaterialized(role, periods)
    requires forall i :: 0 <= i < |SortedPeriods(periods)| ==> !InPeriod(SortedPeriods(periods)[i], week)
    ensures PercentAt(role.slotWindows, week) == 0.0 == PlannedHeadcount(role.weeklyHeadcount, week)
  {
    hide Sorting.SortBy, SlotLayers, HeldTotal, PercentAt, IsQuarterAligned;
    var sorted := SortedPeriods(periods);
    AlignmentSurvivesSorting(periods);
    SortedSaysTheSame(periods, week);
    HeadcountMember(sorted, week);
    if !IsQuarterAligned(sorted) {
      LayersHold(sorted, MaxSlots(sorted), week);
      SortKeepsPercent(SlotLayers(sorted, MaxSlots(sorted)), week);
      TotalOutside(sorted, MaxSlots(sorted), week);
    }
  }

  /** The persisted windows match the plan in every week exactly when no period drifts too far. */
  lemma RoundTripExactly(role: MaterializedRole, periods: seq<PlanPeriod>)
    requires ValidPlan(periods) && IsMaterialized(role, periods)
    ensures MatchesEveryWeek(PersistWindows(role.slotWindows), role.weeklyHeadcount) <==> LittleDrift(SortedPeriods(periods))
  {
    hide IsMaterialized, ValidPlan, PersistedPercent, SortedPeriods, PercentAt, PersistedHeadcount;
    var sorted := SortedPeriods(periods);
    var persisted := PersistWindows(role.slotWindows);
    if MatchesEveryWeek(persisted, role.weeklyHeadcount) {
      forall i | 0 <= i < |sorted| && !IsEmpty(sorted[i])
        ensures Close(PersistedPercent(sorted, i) / 100.0, sorted[i].headcount)
      {
        var week := sorted[i].startWeek;
        assert MatchesIn(persisted, role.weeklyHeadcount, week);
        PersistedIsPercent(role.slotWindows, week);
        PersistedInPeriod(role, periods, i, week);
      }
    }
    if LittleDrift(sorted) {
      forall week
        ensures MatchesIn(persisted, role.weeklyHeadcount, week)
      {
        PersistedIsPercent(role.slotWindows, week);
        if i :| 0 <= i < |sorted| && InPeriod(sorted[i], week) {
          PersistedInPeriod(role, periods, i, week);
        } else {
          PersistedOutside(role, periods, week);
        }
      }
    }
  }

  /** Any week with more than a negligible headcount has a slot window, if the plan survives. */
  lemma StaffedWeekHasWindow(role: MaterializedRole, periods: seq<PlanPeriod>, week: int)
    requires ValidPlan(periods) && LittleDrift(SortedPeriods(periods)) && IsMaterialized(role, periods)
    requires PlannedHeadcount(role.weeklyHeadcount, week) > FLOAT_EPSILON
    ensures role.slotWindows != []
  {
    RoundTripExactly(role, periods);
    assert MatchesIn(PersistWindows(role.slotWindows), role.weeklyHeadcount, week);
    PersistedIsPercent(role.slotWindows, week);
  }

  /** Round trip: persist the plan's windows, and the plan must take over exactly if there are none or some period drifts too far. */
  method PersistAndCheck(role: MaterializedRole, ghost periods: seq<PlanPeriod>) returns (fallback: bool)
    requires ValidPlan(periods) && IsMaterialized(role, periods)
    ensures fallback <==> role.slotWindows == [] || !LittleDrift(SortedPeriods(periods))
    ensures LittleDrift(SortedPeriods(periods)) && (exists week :: PlannedHeadcount(role.weeklyHeadcount, week) > FLOAT_EPSILON) ==> !fallback
  {
    RoundTripExactly(role, periods);
    fallback := ShouldFallbackToActiveCapacityPlan(PersistWindows(role.slotWindows), Some(role));
    if week :| LittleDrift(SortedPeriods(periods)) && PlannedHeadcount(role.weeklyHeadcount, week) > FLOAT_EPSILON {
      StaffedWeekHasWindow(role, periods, week);
    }
  }

  // ── Plans that always survive ──────────────────────────────────────────────

  lemma RunIsClose(periods: seq<PlanPeriod>, share: real -> real)
    requires periods != [] && !IsEmpty(periods[|periods| - 1]) && share(periods[|periods| - 1].headcount) >= 0.0
    ensures Close(RunPercent(periods, share), share(periods[|periods| - 1].headcount))
  {
  }

  lemma {:induction false} TotalIsClose(periods: seq<PlanPeriod>, slots: nat)
    requires periods != [] && !IsEmpty(periods[|periods| - 1])
    ensures Within(RunTotal(periods, slots), SharesBelow(periods[|periods| - 1].headcount, slots), slots)
  {
    hide RunPercent;
    if slots == 0 {
    } else {
      TotalIsClose(periods, slots - 1);
      RunIsClose(periods, ShareOfSlot(slots - 1));
    }
  }

  /** Each slot drifts by at most the tolerance, so a hundred of them stay within it. */
  lemma ModestPlansSurvive(sorted: seq<PlanPeriod>)
    requires NonNegative(sorted) && (IsQuarterAligned(sorted) || MaxSlots(sorted) <= 100)
    ensures LittleDrift(sorted)
  {
    forall i | 0 <= i < |sorted| && !IsEmpty(sorted[i])
      ensures Close(PersistedPercent(sorted, i) / 100.0, sorted[i].headcount)
    {
      if IsQuarterAligned(sorted) {
        assert Close(sorted[i].headcount / 0.25, Round(sorted[i].headcount / 0.25) as real);
      } else {
        TotalIsClose(sorted[..i + 1], MaxSlots(sorted));
        AllSlots(sorted, i);
      }
    }
  }

  lemma AllSlots(sorted: seq<PlanPeriod>, i: nat)
    requires i < |sorted| && sorted[i].headcount >= 0.0
    ensures SharesBelow(sorted[i].headcount, MaxSlots(sorted)) == 100.0 * sorted[i].headcount
  {
    MaxHeadcountBounds(sorted);
    SharesBelowValue(sorted[i].headcount, MaxSlots(sorted));
  }

  lemma {:induction false} RunIsSomeShare(periods: seq<PlanPeriod>, share: real -> real)
    requires LastRun(periods, share).Some?
    ensures exists j :: 0 <= j < |periods| && RunPercent(periods, share) == share(periods[j].headcount)
  {
    var last := |periods| - 1;
    if IsEmpty(periods[last]) || (Continues(LastRun(periods[..last], share), periods[last], share) && !IsEmpty(periods[last - 1])) {
      RunIsSomeShare(periods[..last], share);
      var j :| 0 <= j < last && LastRun(periods[..last], share).value.percent == share(periods[..last][j].headcount);
      assert periods[..last][j] == periods[j];
    }
  }

  lemma RunIsExact(periods: seq<PlanPeriod>, share: real -> real)
    requires periods != [] && !IsEmpty(periods[|periods| - 1]) && Separated(periods, share)
    ensures RunPercent(periods, share) == share(periods[|periods| - 1].headcount)
  {
    var last := |periods| - 1;
    if LastRun(periods, share).Some? {
      RunIsSomeShare(periods, share);
      var j :| 0 <= j < |periods| && RunPercent(periods, share) == share(periods[j].headcount);
      RunIsClose(periods, share);
      assert Close(share(periods[j].headcount), share(periods[last].headcount));
    }
  }

  lemma {:induction false} TotalIsExact(periods: seq<PlanPeriod>, slots: nat)
    requires periods != [] && !IsEmpty(periods[|periods| - 1])
    requires forall slot: nat :: slot < slots ==> Separated(periods, ShareOfSlot(slot))
    ensures RunTotal(periods, slots) == SharesBelow(periods[|periods| - 1].headcount, slots)
  {
    hide RunPercent, Separated;
    if slots == 0 {
    } else {
      TotalIsExact(periods, slots - 1);
      RunIsExact(periods, ShareOfSlot(slots - 1));
    }
  }

  ghost predicate SeparatedSlots(sorted: seq<PlanPeriod>) {
    forall slot: nat :: Separated(sorted, ShareOfSlot(slot))
  }

  /** Slots whose shares are equal or clearly apart do not drift at all, however many there are. */
  lemma SeparatedPlansSurvive(sorted: seq<PlanPeriod>)
    requires NonNegative(sorted) && SeparatedSlots(sorted)
    ensures LittleDrift(sorted)
  {
    if IsQuarterAligned(sorted) {
      ModestPlansSurvive(sorted);
    } else {
      forall i | 0 <= i < |sorted| && !IsEmpty(sorted[i])
        ensures Close(PersistedPercent(sorted, i) / 100.0, sorted[i].headcount)
      {
        forall slot: nat | slot < MaxSlots(sorted)
          ensures Separated(sorted[..i + 1], ShareOfSlot(slot))
        {
          assert Separated(sorted, ShareOfSlot(slot));
        }
        TotalIsExact(sorted[..i + 1], MaxSlots(sorted));
        AllSlots(sorted, i);
      }
    }
  }

  /** Every headcount is a whole number of hundredths, as the engine publishes them. */
  ghost predicate InHundredths(periods: seq<PlanPeriod>) {
    forall i :: 0 <= i < |periods| ==>
      periods[i].headcount >= 0.0 && 100.0 * periods[i].headcount == (100.0 * periods[i].headcount).Floor as real
  }

  /** A slot's share of such a headcount, a whole percentage. */
  function HundredthShare(headcount: real, slot: nat): nat {
    Max(0, Min(100, (100.0 * headcount).Floor - 100 * slot))
  }

  lemma WholeShare(headcount: real, slot: nat)
    requires 100.0 * headcount == (100.0 * headcount).Floor as real
    ensures ShareOfSlot(slot)(headcount) == HundredthShare(headcount, slot) as real
  {
    assert (headcount - slot as real) * 100.0 == ((100.0 * headcount).Floor - 100 * slot) as real;
  }

  lemma WholeSharesApart(a: nat, b: nat)
    ensures Close(a as real, b as real) ==> a == b
    ensures a == 0 || a as real > FLOAT_EPSILON
  {
  }

  lemma HundredthsSeparated(sorted: seq<PlanPeriod>, slot: nat)
    requires InHundredths(sorted)
    ensures Separated(sorted, ShareOfSlot(slot))
  {
    hide SlotShare, ShareOfSlot, HundredthShare, Close;
    var share := ShareOfSlot(slot);
    forall i, j | 0 <= i < |sorted| && 0 <= j < |sorted|
      ensures Close(share(sorted[i].headcount), share(sorted[j].headcount)) ==> share(sorted[i].headcount) == share(sorted[j].headcount)
      ensures share(sorted[i].headcount) == 0.0 || share(sorted[i].headcount) > FLOAT_EPSILON
    {
      WholeShare(sorted[i].headcount, slot);
      WholeShare(sorted[j].headcount, slot);
      WholeSharesApart(HundredthShare(sorted[i].headcount, slot), HundredthShare(sorted[j].headcount, slot));
    }
  }

  /** Such plans always survive. */
  lemma PublishedPlansSurvive(sorted: seq<PlanPeriod>)
    requires InHundredths(sorted)
    ensures SeparatedSlots(sorted) && LittleDrift(sorted)
  {
    hide Separated, LittleDrift;
    forall slot: nat
      ensures Separated(sorted, ShareOfSlot(slot))
    {
      HundredthsSeparated(sorted, slot);
    }
    SeparatedPlansSurvive(sorted);
  }

  // ── Plans that do not ──────────────────────────────────────────────────────

  /** A hundredth of the tolerance, the most a headcount may fall short and still merge. */
  const SHORT: real := FLOAT_EPSILON / 100.0

  /** One more person every week, each week a hair short of whole. */
  function Ladder(n: nat): (r: seq<PlanPeriod>)
    ensures |r| == n
  {
    seq(n, k requires 0 <= k < n => PlanPeriod(k, k, k + 1, (k + 1) as real - SHORT))
  }

  /** The ladder, then a week with exactly n people, and later a week that is no multiple of a quarter. */
  function LadderPlan(n: nat): (r: seq<PlanPeriod>)
    ensures |r| == n + 2
  {
    Ladder(n) + [PlanPeriod(n, n, n + 1, n as real), PlanPeriod(n + 1, n + 2, n + 3, 0.1)]
  }

  lemma {:induction false} SortOfSorted<T>(s: seq<T>, le: (T, T) -> bool)
    requires Sorting.Sorted(s, le)
    ensures Sorting.SortBy(s, le) == s
  {
    if s == [] {
    } else {
      SortOfSorted(s[1..], le);
      assert s == [s[0]] + s[1..];
    }
  }

  lemma LadderIsSorted(n: nat)
    ensures SortedPeriods(LadderPlan(n)) == LadderPlan(n)
    ensures ValidPlan(LadderPlan(n)) && NonNegative(LadderPlan(n)) && !IsQuarterAligned(LadderPlan(n))
  {
    hide Sorting.SortBy;
    SortOfSorted(LadderPlan(n), ByPeriodIndex);
    assert OrderedDisjoint(LadderPlan(n));
    var odd := LadderPlan(n)[n + 1].headcount;
    assert odd / 0.25 == 0.4 && Round(0.4) == 0;
  }

  lemma {:induction false} LadderPeak(n: nat, k: nat)
    requires 0 < n && k <= n + 2
    ensures MaxHeadcount(LadderPlan(n)[..k]) == if k == 0 then 0.0 else if k <= n then k as real - SHORT else n as real
  {
    if k == 0 {
    } else {
      LadderPeak(n, k - 1);
      assert LadderPlan(n)[..k][..k - 1] == LadderPlan(n)[..k - 1];
    }
  }

  lemma LadderSlots(n: nat)
    requires 0 < n
    ensures MaxSlots(LadderPlan(n)) == n
  {
    LadderPeak(n, n + 2);
    assert LadderPlan(n)[..n + 2] == LadderPlan(n);
  }

  /** A slot opens when its person first appears, a hair short, and the whole weeks after merge into that window. */
  lemma {:induction false} LadderMerges(n: nat, slot: nat, k: nat)
    requires slot < n && k <= n + 1
    ensures MergedPeriods(LadderPlan(n)[..k], ShareOfSlot(slot))
         == Merging([], if k <= slot then None else Some(Window(slot, k - 1, 100.0 - FLOAT_EPSILON)))
  {
    if k == 0 {
    } else {
      LadderMerges(n, slot, k - 1);
      assert LadderPlan(n)[..k][..k - 1] == LadderPlan(n)[..k - 1];
      LadderShare(n, slot, k - 1);
    }
  }

  lemma LadderShare(n: nat, slot: nat, k: nat)
    requires slot < n && k <= n
    ensures var share := SlotShare(LadderPlan(n)[k].headcount, slot);
            if k < slot then share == 0.0
            else if k == slot then share == 100.0 - FLOAT_EPSILON
            else share == 100.0
  {
    var headcount := LadderPlan(n)[k].headcount;
    if k == slot {
      assert headcount - slot as real == 1.0 - SHORT;
    } else if k > slot {
      assert headcount - slot as real >= 1.0;
    } else {
      assert headcount - slot as real <= 0.0;
    }
  }

  lemma LadderLayer(n: nat, slot: nat)
    requires slot < n
    ensures PercentAt(Layer(LadderPlan(n), ShareOfSlot(slot)), n) == 100.0 - FLOAT_EPSILON
  {
    var plan := LadderPlan(n);
    LadderMerges(n, slot, n + 1);
    assert plan[..n + 2][..n + 1] == plan[..n + 1] && plan[..n + 2] == plan;
    var window := Window(slot, n, 100.0 - FLOAT_EPSILON);
    PercentOne(window, n);
    var later := Window(n + 2, n + 2, SlotShare(0.1, slot));
    PercentAppend([window], [later], n);
    PercentOne(later, n);
  }

  /** So many slots, each the tolerance short of a whole person. */
  function AlmostWhole(slots: nat): real {
    slots as real * (100.0 - FLOAT_EPSILON)
  }

  lemma {:induction false} LadderLayers(n: nat, slots: nat)
    requires slots <= n
    ensures PercentAt(SlotLayers(LadderPlan(n), slots), n) == AlmostWhole(slots)
  {
    hide Layer, LadderPlan;
    if slots == 0 {
    } else {
      LadderLayers(n, slots - 1);
      LadderLayer(n, slots - 1);
      PercentAppend(SlotLayers(LadderPlan(n), slots - 1), Layer(LadderPlan(n), ShareOfSlot(slots - 1)), n);
    }
  }

  lemma LadderHeadcount(n: nat)
    ensures HeadcountIn(LadderPlan(n), n) == Some(n as real)
  {
    var plan := LadderPlan(n);
    assert plan[..n + 1][n] == PlanPeriod(n, n, n + 1, n as real);
  }

  /**
   * Above a hundred slots the round trip can fail, for every number of slots: persisting the windows
   * of the ladder leaves its last week short by more than the tolerance.
   */
  lemma LadderBreaksTheRoundTrip(n: nat, weekly: map<int, real>)
    requires n > 100 && IsWeeklyMap(weekly, LadderPlan(n))
    ensures var windows := ExactSlotWindows(LadderPlan(n));
            && MaxSlots(SortedPeriods(LadderPlan(n))) == n
            && PlannedHeadcount(weekly, n) == n as real
            && !MatchesIn(PersistWindows(windows), weekly, n)
            && !MatchesEveryWeek(PersistWindows(windows), weekly)
            && !LittleDrift(SortedPeriods(LadderPlan(n)))
  {
    var windows := ExactSlotWindows(LadderPlan(n));
    LadderIsSorted(n);
    LadderSlots(n);
    LadderLayers(n, n);
    SortKeepsPercent(SlotLayers(LadderPlan(n), n), n);
    PersistedIsPercent(windows, n);
    LadderHeadcount(n);
    ShortByTolerance(n);
    assert !MatchesIn(PersistWindows(windows), weekly, n);
    LadderDrifts(n);
  }

  lemma LadderDrifts(n: nat)
    requires n > 100
    ensures !LittleDrift(LadderPlan(n))
  {
    hide SlotLayers, HeldTotal, RunTotal, LittleDrift, SortedPeriods, IsQuarterAligned, LadderPlan;
    var plan := LadderPlan(n);
    LadderIsSorted(n);
    LadderSlots(n);
    LadderLayers(n, n);
    LadderWeek(n);
    LayersHold(plan, n, n);
    TotalInPeriod(plan, n, n, n);
    ShortByTolerance(n);
    DriftAt(plan, n);
  }

  lemma DriftAt(sorted: seq<PlanPeriod>, i: nat)
    requires i < |sorted| && !IsEmpty(sorted[i]) && !Close(PersistedPercent(sorted, i) / 100.0, sorted[i].headcount)
    ensures !LittleDrift(sorted)
  {
  }

  lemma LadderWeek(n: nat)
    ensures LadderPlan(n)[n] == PlanPeriod(n, n, n + 1, n as real)
    ensures OrderedDisjoint(LadderPlan(n))
  {
  }

  lemma ShortByTolerance(n: nat)
    requires n > 100
    ensures !Close(AlmostWhole(n) / 100.0, n as real)
  {
    assert n as real * (100.0 - FLOAT_EPSILON) / 100.0 == n as real - n as real * FLOAT_EPSILON / 100.0;
  }
}
