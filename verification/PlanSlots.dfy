/** The slot windows of one role's plan: how much of each person-sized slot is in use, and when. */
module PlanSlots {
  import opened Common
  import opened PlanLayers
  import Sorting

  // ── Order and size of a plan ───────────────────────────────────────────────

  predicate ByPeriodIndex(a: PlanPeriod, b: PlanPeriod) {
    a.periodIndex <= b.periodIndex
  }

  function SortedPeriods(periods: seq<PlanPeriod>): seq<PlanPeriod> {
    Sorting.SortBy(periods, ByPeriodIndex)
  }

  /** What the period list promises: taken by index, its weeks are in order and disjoint. */
  ghost predicate ValidPlan(periods: seq<PlanPeriod>) {
    OrderedDisjoint(SortedPeriods(periods))
  }

  function MaxHeadcount(periods: seq<PlanPeriod>): real {
    if periods == [] then 0.0
    else RealMax(MaxHeadcount(periods[..|periods| - 1]), periods[|periods| - 1].headcount)
  }

  lemma {:induction false} MaxHeadcountBounds(periods: seq<PlanPeriod>)
    ensures MaxHeadcount(periods) >= 0.0
    ensures forall i :: 0 <= i < |periods| ==> periods[i].headcount <= MaxHeadcount(periods)
  {
    if periods == [] {
    } else {
      MaxHeadcountBounds(periods[..|periods| - 1]);
    }
  }

  function Ceiling(x: real): int {
    -((-x).Floor)
  }

  function MaxSlots(periods: seq<PlanPeriod>): nat {
    MaxHeadcountBounds(periods);
    Ceiling(MaxHeadcount(periods))
  }

  function Positive(x: real): real {
    RealMax(0.0, x)
  }

  /** 100 times the plan's headcount in a week, nothing where it is silent or negative. */
  function PlannedPercent(periods: seq<PlanPeriod>, week: int): real {
    var headcount := HeadcountIn(periods, week);
    if headcount.Some? then Positive(100.0 * headcount.value) else 0.0
  }

  // ── Exact slots ────────────────────────────────────────────────────────────

  function SlotShare(headcount: real, slot: nat): real {
    RealMax(0.0, RealMin(100.0, (headcount - slot as real) * 100.0))
  }

  function ShareOfSlot(slot: nat): real -> real {
    headcount => SlotShare(headcount, slot)
  }

  function SharesBelow(headcount: real, slots: nat): real {
    if slots == 0 then 0.0 else SharesBelow(headcount, slots - 1) + SlotShare(headcount, slots - 1)
  }

  lemma {:induction false} SharesBelowValue(headcount: real, slots: nat)
    ensures SharesBelow(headcount, slots) == RealMin(100.0 * slots as real, Positive(100.0 * headcount))
  {
    if slots == 0 {
    } else {
      SharesBelowValue(headcount, slots - 1);
    }
  }

  function SharesBelowIn(periods: seq<PlanPeriod>, slots: nat, week: int): real {
    var headcount := HeadcountIn(periods, week);
    if headcount.Some? then SharesBelow(headcount.value, slots) else 0.0
  }

  /** All slots together carry the whole headcount. */
  lemma AllSharesCarryHeadcount(periods: seq<PlanPeriod>, week: int)
    ensures SharesBelowIn(periods, MaxSlots(periods), week) == PlannedPercent(periods, week)
  {
    HeadcountMember(periods, week);
    MaxHeadcountBounds(periods);
    var headcount := HeadcountIn(periods, week);
    if headcount.Some? {
      SharesBelowValue(headcount.value, MaxSlots(periods));
    }
  }

  ghost predicate Within(a: real, b: real, slots: nat) {
    RealAbs(a - b) <= slots as real * FLOAT_EPSILON
  }

  lemma LayerError(windows: seq<Window>, periods: seq<PlanPeriod>, share: real -> real, week: int)
    requires IsLayer(windows, periods, share) && ShareIn(periods, share, week) >= 0.0
    ensures Close(PercentAt(windows, week), ShareIn(periods, share, week))
  {
    assert TracksShare(windows, periods, share, week);
  }

  /** Window percentages between the tolerance and one full person. */
  ghost predicate PersonSized(windows: seq<Window>) {
    forall k :: 0 <= k < |windows| ==> 0.0 < windows[k].percent <= 100.0
  }

  predicate ByWeeksThenSize(a: Window, b: Window) {
    if a.startWeek != b.startWeek then a.startWeek < b.startWeek
    else if a.endWeek != b.endWeek then a.endWeek < b.endWeek
    else a.percent >= b.percent
  }

  lemma {:induction false} InsertKeepsPercent(window: Window, windows: seq<Window>, week: int)
    ensures PercentAt(Sorting.Insert(window, windows, ByWeeksThenSize), week) == PercentAt([window], week) + PercentAt(windows, week)
  {
    PercentOne(window, week);
    if windows == [] {
    } else {
      if ByWeeksThenSize(window, windows[0]) {
        PercentAppend([window], windows, week);
      } else {
        InsertKeepsPercent(window, windows[1..], week);
        var rest := Sorting.Insert(window, windows[1..], ByWeeksThenSize);
        assert ([windows[0]] + rest)[1..] == rest;
      }
    }
  }

  lemma {:induction false} SortKeepsPercent(windows: seq<Window>, week: int)
    ensures PercentAt(Sorting.SortBy(windows, ByWeeksThenSize), week) == PercentAt(windows, week)
  {
    if windows == [] {
    } else {
      SortKeepsPercent(windows[1..], week);
      InsertKeepsPercent(windows[0], Sorting.SortBy(windows[1..], ByWeeksThenSize), week);
      PercentOne(windows[0], week);
    }
  }

  lemma SortKeepsSizes(windows: seq<Window>)
    requires PersonSized(windows)
    ensures PersonSized(Sorting.SortBy(windows, ByWeeksThenSize))
  {
    var sorted := Sorting.SortBy(windows, ByWeeksThenSize);
    forall k | 0 <= k < |sorted|
      ensures 0.0 < sorted[k].percent <= 100.0
    {
      Sorting.SortMembers(windows, ByWeeksThenSize, sorted[k]);
    }
  }

  /** The layers of the first slots, one after the other. */
  function SlotLayers(sorted: seq<PlanPeriod>, slots: nat): seq<Window> {
    if slots == 0 then [] else SlotLayers(sorted, slots - 1) + Layer(sorted, ShareOfSlot(slots - 1))
  }

  function ExactSlotWindows(periods: seq<PlanPeriod>): seq<Window> {
    var sorted := SortedPeriods(periods);
    Sorting.SortBy(SlotLayers(sorted, MaxSlots(sorted)), ByWeeksThenSize)
  }

  method DeriveExactSlotWindows(periods: seq<PlanPeriod>) returns (windows: seq<Window>)
    requires ValidPlan(periods)
    ensures windows == ExactSlotWindows(periods)
    ensures PersonSized(windows)
    ensures forall week :: Within(PercentAt(windows, week), PlannedPercent(SortedPeriods(periods), week), MaxSlots(SortedPeriods(periods)))
  {
    hide Within, SharesBelowIn, PlannedPercent, PercentAt, IsLayer, Unsplit, MaximalWindows, Layer, Sorting.SortBy, SlotShare, MaxSlots;
    var sorted := SortedPeriods(periods);
    var maxSlots := MaxSlots(sorted);
    windows := [];
    NoWindowsWithin(sorted);
    for slot := 0 to maxSlots
      invariant windows == SlotLayers(sorted, slot)
      invariant PersonSized(windows)
      invariant forall week :: Within(PercentAt(windows, week), SharesBelowIn(sorted, slot, week), slot)
    {
      var layer := BuildLayer(sorted, ShareOfSlot(slot));
      LayerSizes(layer, sorted, slot);
      forall week
        ensures Within(PercentAt(windows + layer, week), SharesBelowIn(sorted, slot + 1, week), slot + 1)
      {
        NextSlotWithin(windows, layer, sorted, slot, week);
      }
      windows := windows + layer;
    }
    forall week
      ensures Within(PercentAt(Sorting.SortBy(windows, ByWeeksThenSize), week), PlannedPercent(sorted, week), maxSlots)
    {
      SortKeepsPercent(windows, week);
      AllSharesCarryHeadcount(sorted, week);
    }
    SortKeepsSizes(windows);
    windows := Sorting.SortBy(windows, ByWeeksThenSize);
  }

  lemma NextSlotWithin(windows: seq<Window>, layer: seq<Window>, sorted: seq<PlanPeriod>, slot: nat, week: int)
    requires Within(PercentAt(windows, week), SharesBelowIn(sorted, slot, week), slot)
    requires IsLayer(layer, sorted, ShareOfSlot(slot))
    ensures Within(PercentAt(windows + layer, week), SharesBelowIn(sorted, slot + 1, week), slot + 1)
  {
    hide IsLayer, SlotShare, PercentAt;
    PercentAppend(windows, layer, week);
    SlotShareNonNegative(sorted, slot, week);
    LayerError(layer, sorted, ShareOfSlot(slot), week);
  }

  lemma SlotShareNonNegative(sorted: seq<PlanPeriod>, slot: nat, week: int)
    ensures ShareIn(sorted, ShareOfSlot(slot), week) >= 0.0
  {
  }

  lemma NoWindowsWithin(sorted: seq<PlanPeriod>)
    ensures forall week :: Within(PercentAt([], week), SharesBelowIn(sorted, 0, week), 0)
  {
  }

  lemma LayerSizes(windows: seq<Window>, periods: seq<PlanPeriod>, slot: nat)
    requires IsLayer(windows, periods, ShareOfSlot(slot))
    ensures PersonSized(windows)
  {
  }

  // ── Quarter-aligned plans: layers of one quantum ───────────────────────────

  function Round(x: real): int {
    (x + 0.5).Floor
  }

  function Round2(x: real): real {
    Round(x * 100.0) as real / 100.0
  }

  /** Whole quarters of a person; nothing for a headcount of zero or less. */
  function QuantizeUnits(headcount: real): nat {
    if headcount <= 0.0 then 0 else Max(0, Round(headcount / 0.25))
  }

  predicate IsQuarterAligned(periods: seq<PlanPeriod>) {
    forall i :: 0 <= i < |periods| ==> Close(periods[i].headcount / 0.25, Round(periods[i].headcount / 0.25) as real)
  }

  function MaxUnits(periods: seq<PlanPeriod>): nat {
    if periods == [] then 0
    else Max(MaxUnits(periods[..|periods| - 1]), QuantizeUnits(periods[|periods| - 1].headcount))
  }

  lemma {:induction false} MaxUnitsBounds(periods: seq<PlanPeriod>)
    ensures forall i :: 0 <= i < |periods| ==> QuantizeUnits(periods[i].headcount) <= MaxUnits(periods)
  {
    if periods == [] {
    } else {
      MaxUnitsBounds(periods[..|periods| - 1]);
    }
  }

  function UnitsIn(periods: seq<PlanPeriod>, week: int): nat {
    var headcount := HeadcountIn(periods, week);
    if headcount.Some? then QuantizeUnits(headcount.value) else 0
  }

  function UnitPercent(units: int): real {
    25.0 * units as real
  }

  /** For an aligned plan the units are the headcount, to within a quarter of the tolerance. */
  lemma UnitsAreHeadcount(periods: seq<PlanPeriod>, week: int)
    requires IsQuarterAligned(periods)
    ensures RealAbs(UnitPercent(UnitsIn(periods, week)) - PlannedPercent(periods, week)) <= 25.0 * FLOAT_EPSILON
  {
    HeadcountMember(periods, week);
    var headcount := HeadcountIn(periods, week);
    if headcount.Some? && headcount.value > 0.0 {
      assert Close(headcount.value / 0.25, Round(headcount.value / 0.25) as real);
    }
  }

  /** Shares that are either equal or clearly apart make the merge exact. */
  ghost predicate Separated(periods: seq<PlanPeriod>, share: real -> real) {
    && (forall i, j :: 0 <= i < |periods| && 0 <= j < |periods| && Close(share(periods[i].headcount), share(periods[j].headcount)) ==>
          share(periods[i].headcount) == share(periods[j].headcount))
    && (forall i :: 0 <= i < |periods| ==> share(periods[i].headcount) == 0.0 || share(periods[i].headcount) > FLOAT_EPSILON)
  }

  lemma LayerExact(windows: seq<Window>, periods: seq<PlanPeriod>, share: real -> real, week: int)
    requires IsLayer(windows, periods, share) && Separated(periods, share)
    ensures PercentAt(windows, week) == ShareIn(periods, share, week)
  {
    assert TracksShare(windows, periods, share, week);
    HeadcountMember(periods, week);
    if ShareIn(periods, share, week) > FLOAT_EPSILON {
      var k :| 0 <= k < |windows| && InWindow(windows[k], week);
      PercentSingle(windows, k, week);
      var start := windows[k].startWeek;
      HeadcountMember(periods, start);
      assert windows[k].percent == ShareIn(periods, share, start);
      var i :| 0 <= i < |periods| && InPeriod(periods[i], start) && HeadcountIn(periods, start) == Some(periods[i].headcount);
      var j :| 0 <= j < |periods| && InPeriod(periods[j], week) && HeadcountIn(periods, week) == Some(periods[j].headcount);
      assert Close(share(periods[i].headcount), share(periods[j].headcount));
    }
  }

  function QuantumShare(unit: nat): real -> real {
    headcount => if QuantizeUnits(headcount) >= unit then 25.0 else 0.0
  }

  /** Every window is one quantum wide in percent. */
  ghost predicate Quanta(windows: seq<Window>) {
    forall k :: 0 <= k < |windows| ==> windows[k].percent == 25.0
  }

  method QuantumWindows(sorted: seq<PlanPeriod>) returns (windows: seq<Window>)
    requires OrderedDisjoint(sorted)
    ensures Quanta(windows)
    ensures forall week :: PercentAt(windows, week) == UnitPercent(UnitsIn(sorted, week))
  {
    windows := [];
    var maxUnits := MaxUnits(sorted);
    for unit := 1 to maxUnits + 1
      invariant Quanta(windows)
      invariant forall week :: PercentAt(windows, week) == UnitPercent(Min(UnitsIn(sorted, week), unit - 1))
    {
      var layer := BuildLayer(sorted, QuantumShare(unit));
      forall k | 0 <= k < |layer|
        ensures layer[k].percent == 25.0
      {
        assert layer[k].percent == ShareIn(sorted, QuantumShare(unit), layer[k].startWeek);
      }
      forall week
        ensures PercentAt(windows + layer, week) == UnitPercent(Min(UnitsIn(sorted, week), unit))
      {
        assert PercentAt(windows, week) == UnitPercent(Min(UnitsIn(sorted, week), unit - 1));
        PercentAppend(windows, layer, week);
        LayerExact(layer, sorted, QuantumShare(unit), week);
      }
      windows := windows + layer;
    }
    forall week
      ensures UnitsIn(sorted, week) <= maxUnits
    {
      HeadcountMember(sorted, week);
      MaxUnitsBounds(sorted);
    }
  }

  // ── Grouping equal windows, and cutting groups into people ─────────────────

  ghost predicate DistinctWeeks(windows: seq<Window>) {
    forall i, j :: 0 <= i < j < |windows| ==> (windows[i].startWeek, windows[i].endWeek) != (windows[j].startWeek, windows[j].endWeek)
  }

  ghost predicate WholeQuanta(percent: real) {
    exists units: int :: units > 0 && percent == UnitPercent(units)
  }

  ghost predicate AllWholeQuanta(windows: seq<Window>) {
    forall k :: 0 <= k < |windows| ==> WholeQuanta(windows[k].percent)
  }

  function FindWeeks(windows: seq<Window>, startWeek: int, endWeek: int): (k: nat)
    ensures k <= |windows|
    ensures k < |windows| ==> windows[k].startWeek == startWeek && windows[k].endWeek == endWeek
    ensures forall j :: 0 <= j < k ==> !(windows[j].startWeek == startWeek && windows[j].endWeek == endWeek)
  {
    if windows == [] then 0
    else if windows[0].startWeek == startWeek && windows[0].endWeek == endWeek then 0
    else
      assert windows == [windows[0]] + windows[1..];
      1 + FindWeeks(windows[1..], startWeek, endWeek)
  }

  lemma {:induction false} PercentUpdate(windows: seq<Window>, k: nat, percent: real, week: int)
    requires k < |windows|
    ensures PercentAt(windows[k := windows[k].(percent := percent)], week)
         == PercentAt(windows, week) + if InWindow(windows[k], week) then percent - windows[k].percent else 0.0
  {
    var updated := windows[k := windows[k].(percent := percent)];
    if k == 0 {
      assert updated[1..] == windows[1..];
    } else {
      assert updated[1..] == windows[1..][k - 1 := windows[k].(percent := percent)];
      PercentUpdate(windows[1..], k - 1, percent, week);
    }
  }

  method GroupWindows(windows: seq<Window>) returns (grouped: seq<Window>)
    requires Quanta(windows)
    ensures DistinctWeeks(grouped) && AllWholeQuanta(grouped)
    ensures forall week :: PercentAt(grouped, week) == PercentAt(windows, week)
  {
    grouped := [];
    for i := 0 to |windows|
      invariant DistinctWeeks(grouped) && AllWholeQuanta(grouped)
      invariant forall week :: PercentAt(grouped, week) == PercentAt(windows[..i], week)
    {
      var window := windows[i];
      var k := FindWeeks(grouped, window.startWeek, window.endWeek);
      ghost var before := grouped;
      if k < |grouped| {
        var total := grouped[k].percent + window.percent;
        var units: int :| units > 0 && grouped[k].percent == UnitPercent(units);
        assert total == UnitPercent(units + 1);
        grouped := grouped[k := grouped[k].(percent := total)];
      } else {
        assert window.percent == UnitPercent(1);
        grouped := grouped + [window];
      }
      forall week
        ensures PercentAt(grouped, week) == PercentAt(windows[..i + 1], week)
      {
        assert PercentAt(before, week) == PercentAt(windows[..i], week);
        assert windows[..i + 1] == windows[..i] + [window];
        PercentAppend(windows[..i], [window], week);
        PercentOne(window, week);
        if k < |before| {
          PercentUpdate(before, k, before[k].percent + window.percent, week);
        } else {
          PercentAppend(before, [window], week);
        }
      }
    }
    assert windows[..|windows|] == windows;
  }

  lemma RoundWholeQuanta(units: int)
    ensures Round2(UnitPercent(units)) == UnitPercent(units)
  {
    assert UnitPercent(units) * 100.0 == (2500 * units) as real;
    assert (((2500 * units) as real) + 0.5).Floor == 2500 * units;
  }

  /** Cut a group into windows of at most one person; the loop always ends. */
  method SplitGroup(group: Window) returns (windows: seq<Window>)
    requires WholeQuanta(group.percent)
    ensures PersonSized(windows) && windows != []
    ensures forall k :: 0 <= k < |windows| ==> windows[k].startWeek == group.startWeek && windows[k].endWeek == group.endWeek
    ensures forall k :: 0 <= k < |windows| - 1 ==> windows[k].percent == 100.0
    ensures forall week :: PercentAt(windows, week) == PercentAt([group], week)
  {
    windows := [];
    ghost var units: int :| units > 0 && group.percent == UnitPercent(units);
    RoundWholeQuanta(units);
    var remaining := Round2(group.percent);
    while remaining > FLOAT_EPSILON
      invariant units >= 0 && remaining == UnitPercent(units) <= group.percent
      invariant PersonSized(windows)
      invariant forall k :: 0 <= k < |windows| ==> windows[k].startWeek == group.startWeek && windows[k].endWeek == group.endWeek
      invariant forall k :: 0 <= k < |windows| && (units > 0 || k < |windows| - 1) ==> windows[k].percent == 100.0
      invariant windows == [] ==> units > 0
      invariant forall week :: PercentAt(windows, week) == if InWindow(group, week) then group.percent - remaining else 0.0
      decreases units
    {
      var allocationPercent := RealMin(100.0, remaining);
      ghost var taken := Min(4, units);
      assert allocationPercent == UnitPercent(taken);
      RoundWholeQuanta(taken);
      RoundWholeQuanta(units - taken);
      assert remaining - allocationPercent == UnitPercent(units - taken);
      var chunk := Window(group.startWeek, group.endWeek, Round2(allocationPercent));
      forall week
        ensures PercentAt(windows + [chunk], week)
             == if InWindow(group, week) then group.percent - (remaining - allocationPercent) else 0.0
      {
        assert PercentAt(windows, week) == if InWindow(group, week) then group.percent - remaining else 0.0;
        PercentAppend(windows, [chunk], week);
        PercentOne(chunk, week);
      }
      windows := windows + [chunk];
      remaining := Round2(remaining - allocationPercent);
      units := units - taken;
    }
    forall week
      ensures PercentAt(windows, week) == PercentAt([group], week)
    {
      PercentOne(group, week);
    }
  }

  method SplitGroups(grouped: seq<Window>) returns (windows: seq<Window>)
    requires AllWholeQuanta(grouped)
    ensures PersonSized(windows)
    ensures forall week :: PercentAt(windows, week) == PercentAt(grouped, week)
  {
    windows := [];
    for i := 0 to |grouped|
      invariant PersonSized(windows)
      invariant forall week :: PercentAt(windows, week) == PercentAt(grouped[..i], week)
    {
      var chunks := SplitGroup(grouped[i]);
      forall week
        ensures PercentAt(windows + chunks, week) == PercentAt(grouped[..i + 1], week)
      {
        assert PercentAt(windows, week) == PercentAt(grouped[..i], week);
        PercentAppend(windows, chunks, week);
        assert grouped[..i + 1] == grouped[..i] + [grouped[i]];
        PercentAppend(grouped[..i], [grouped[i]], week);
      }
      windows := windows + chunks;
    }
    assert grouped[..|grouped|] == grouped;
  }

  /**
   * Slot-window conservation. An aligned plan's windows carry exactly its quarters in
   * every week; any other plan's windows carry its headcount to within the tolerance per slot.
   */
  method DeriveSlotWindows(periods: seq<PlanPeriod>) returns (windows: seq<Window>)
    requires ValidPlan(periods)
    ensures PersonSized(windows)
    ensures !IsQuarterAligned(periods) ==> windows == ExactSlotWindows(periods)
    ensures IsQuarterAligned(periods) ==>
              forall week :: PercentAt(windows, week) == UnitPercent(UnitsIn(SortedPeriods(periods), week))
    ensures !IsQuarterAligned(periods) ==>
              forall week :: Within(PercentAt(windows, week), PlannedPercent(SortedPeriods(periods), week), MaxSlots(SortedPeriods(periods)))
  {
    if !IsQuarterAligned(periods) {
      windows := DeriveExactSlotWindows(periods);
      return;
    }
    var sorted := SortedPeriods(periods);
    var quantumWindows := QuantumWindows(sorted);
    var grouped := GroupWindows(quantumWindows);
    var chunks := SplitGroups(grouped);
    windows := Sorting.SortBy(chunks, ByWeeksThenSize);
    SortKeepsSizes(chunks);
    forall week
      ensures PercentAt(windows, week) == UnitPercent(UnitsIn(sorted, week))
    {
      SortKeepsPercent(chunks, week);
      assert PercentAt(chunks, week) == PercentAt(grouped, week);
      assert PercentAt(grouped, week) == PercentAt(quantumWindows, week);
      assert PercentAt(quantumWindows, week) == UnitPercent(UnitsIn(sorted, week));
    }
  }
}
