/**
 * Deriving the per-period headcount envelope from weekly demand: quantise, protect named
 * people, apply floors, smooth, cap, and trim to the allocation buffer.
 */
module Envelope {
  import opened Common
  import opened Scheduler
  import opened Smoothing
  import Sorting

  const QUANTUM := 25

  datatype SmoothingMode = Gentle | Tight | Exact

  datatype EnvelopeConfig = EnvelopeConfig(
    maxDeltaPerPeriod: nat,
    smoothingMode: SmoothingMode,
    minFloor: map<Id, nat>,
    maxCap: map<Id, nat>,
    allocationBuffer: real)

  /** The least multiple of the quantum that covers a demand given in hundredths of an FTE. */
  function QuantizeUp(value: real): (r: nat)
    ensures value <= r as real && r % QUANTUM == 0
    ensures r > 0 ==> (r - QUANTUM) as real < value
  {
    if value <= 0.0 then 0 else
      var steps := -((-(value / 25.0)).Floor);
      assert steps >= 0;
      25 * steps
  }

  function PeriodCount(totalWeeks: nat, periodWeeks: nat): nat
    requires periodWeeks > 0
  {
    Max(1, (totalWeeks + periodWeeks - 1) / periodWeeks)
  }

  function PeriodEnd(period: nat, totalWeeks: nat, periodWeeks: nat): nat {
    Min((period + 1) * periodWeeks, totalWeeks + 1)
  }

  function FindResourceType(resourceTypes: seq<ResourceType>, id: Id): Option<ResourceType> {
    if resourceTypes == [] then None
    else if resourceTypes[0].id == id then Some(resourceTypes[0])
    else FindResourceType(resourceTypes[1..], id)
  }

  /** The greatest weekly named capacity in [start, stop), or 0 for no weeks. */
  function PeakNamed(resources: seq<NamedResource>, start: int, stop: int): nat
    decreases stop - start
  {
    if start >= stop then 0
    else Max(PeakNamed(resources, start, stop - 1), NamedCapacity(resources, stop - 1))
  }

  lemma {:induction false} PeakNamedIsPeak(resources: seq<NamedResource>, start: int, stop: int)
    requires start <= stop
    ensures forall week :: start <= week < stop ==> NamedCapacity(resources, week) <= PeakNamed(resources, start, stop)
    ensures PeakNamed(resources, start, stop) > 0 ==>
              exists week :: start <= week < stop && NamedCapacity(resources, week) == PeakNamed(resources, start, stop)
    decreases stop - start
  {
    if start >= stop {
    } else {
      PeakNamedIsPeak(resources, start, stop - 1);
      var peak := PeakNamed(resources, start, stop);
      if peak > 0 && peak != NamedCapacity(resources, stop - 1) {
        var week :| start <= week < stop - 1 && NamedCapacity(resources, week) == PeakNamed(resources, start, stop - 1);
        assert NamedCapacity(resources, week) == peak;
      }
    }
  }

  function NamedFloor(rt: Option<ResourceType>, period: nat, totalWeeks: nat, periodWeeks: nat): nat {
    if rt.None? then 0
    else PeakNamed(rt.value.namedResources, period * periodWeeks, PeriodEnd(period, totalWeeks, periodWeeks))
  }

  method NamedFloorFor(rt: ResourceType, period: nat, totalWeeks: nat, periodWeeks: nat) returns (floor: nat)
    ensures floor == NamedFloor(Some(rt), period, totalWeeks, periodWeeks)
  {
    floor := 0;
    var week := period * periodWeeks;
    while week < PeriodEnd(period, totalWeeks, periodWeeks)
      invariant floor == PeakNamed(rt.namedResources, period * periodWeeks, week)
      invariant week <= Max(period * periodWeeks, PeriodEnd(period, totalWeeks, periodWeeks))
    {
      var named := NamedCapacityFte(rt, week);
      floor := Max(floor, named);
      week := week + 1;
    }
  }

  /** Working days in a trimmed envelope: five a week for every FTE of each period. */
  function AllocatedDays(cap: seq<int>, widths: seq<nat>): int
    requires |cap| == |widths|
  {
    if cap == [] then 0
    else AllocatedDays(cap[..|cap| - 1], widths[..|cap| - 1]) + cap[|cap| - 1] * widths[|cap| - 1] * 5
  }

  lemma {:induction false} AllocatedUpdate(cap: seq<int>, widths: seq<nat>, p: nat, value: int)
    requires |cap| == |widths| && p < |cap|
    ensures AllocatedDays(cap[p := value], widths) == AllocatedDays(cap, widths) + (value - cap[p]) * widths[p] * 5
  {
    var last := |cap| - 1;
    if p == last {
      assert cap[p := value][..last] == cap[..last];
      assert (value - cap[p]) * widths[p] == value * widths[p] - cap[p] * widths[p];
    } else {
      assert cap[p := value][..last] == cap[..last][p := value];
      AllocatedUpdate(cap[..last], widths[..last], p, value);
    }
  }

  function Utilisation(avg: seq<real>, cap: seq<int>, p: nat): real
    requires |avg| == |cap|
  {
    if p < |cap| && cap[p] > 0 then avg[p] / cap[p] as real else 0.0
  }

  function ByUtilisation(avg: seq<real>, cap: seq<int>): (nat, nat) -> bool
    requires |avg| == |cap|
  {
    (a: nat, b: nat) => Utilisation(avg, cap, a) <= Utilisation(avg, cap, b)
  }

  function Indices(n: nat): (r: seq<nat>)
    ensures |r| == n && forall i :: 0 <= i < n ==> r[i] == i
  {
    seq(n, i => i)
  }

  /** Every period exactly once. */
  ghost predicate IsOrdering(order: seq<nat>, n: nat) {
    && |order| == n && NoDuplicates(order)
    && (forall i :: 0 <= i < n ==> order[i] < n)
    && (forall p :: 0 <= p < n ==> p in order)
  }

  lemma OrderingOfSort(avg: seq<real>, cap: seq<int>)
    requires |avg| == |cap|
    ensures IsOrdering(Sorting.SortBy(Indices(|cap|), ByUtilisation(avg, cap)), |cap|)
    ensures Sorting.Sorted(Sorting.SortBy(Indices(|cap|), ByUtilisation(avg, cap)), ByUtilisation(avg, cap))
  {
    var le := ByUtilisation(avg, cap);
    var indices := Indices(|cap|);
    var order := Sorting.SortBy(indices, le);
    Sorting.SortKeepsElements(indices, le);
    Sorting.SortSorts(indices, le);
    forall p | 0 <= p < |cap|
      ensures p in order
    {
      assert indices[p] == p;
      assert p in multiset(order);
    }
    forall i | 0 <= i < |cap|
      ensures order[i] < |cap|
    {
      assert order[i] in multiset(order);
    }
    IndicesOnce(|cap|);
    MultisetDistinct(order);
  }

  lemma IndicesOnce(n: nat)
    ensures forall p :: p in Indices(n) ==> multiset(Indices(n))[p] == 1
  {
    if n > 0 {
      IndicesOnce(n - 1);
      assert Indices(n) == Indices(n - 1) + [n - 1];
    }
  }

  lemma MultisetDistinct(s: seq<nat>)
    requires forall x :: x in s ==> multiset(s)[x] == 1
    ensures NoDuplicates(s)
  {
    forall i, j | 0 <= i < j < |s|
      ensures s[i] != s[j]
    {
      if s[i] == s[j] {
        Repeated(s, i, j);
      }
    }
  }

  /** The days one quantum stands for over a period's width. */
  function QuantumDays(width: nat): nat {
    QUANTUM * width * 5
  }

  /** What trimming one role's envelope to its allocation budget may and must do. */
  ghost predicate IsTrimmed(out: seq<int>, cap: seq<int>, widths: seq<nat>, required: seq<int>, order: seq<nat>, budget: real) {
    && |out| == |cap| == |widths| == |required|
    && IsOrdering(order, |cap|)
    // values only fall, and never below what their period requires
    && (forall p :: 0 <= p < |cap| ==> Min(cap[p], required[p]) <= out[p] <= cap[p])
    // in whole quanta, except for a last step that lands on the requirement
    && (forall p :: 0 <= p < |cap| ==> out[p] == required[p] || (cap[p] - out[p]) % QUANTUM == 0)
    // the budget is met, or nothing is left to take
    && (AllocatedDays(out, widths) as real <= budget || forall p :: 0 <= p < |cap| ==> out[p] <= required[p])
    // a period gives way only after every period earlier in the order is exhausted
    && (forall i, j :: 0 <= i < j < |order| && out[order[j]] < cap[order[j]] ==> out[order[i]] <= required[order[i]])
    // nothing was taken that the budget did not call for
    && (out == cap
        || exists p :: 0 <= p < |cap| && out[p] < cap[p]
             && (AllocatedDays(out, widths) + QuantumDays(widths[p])) as real > budget)
  }

  method CurrentAllocation(cap: array<int>, widths: seq<nat>) returns (days: int)
    requires |widths| == cap.Length
    ensures days == AllocatedDays(cap[..], widths)
  {
    days := 0;
    for p := 0 to cap.Length
      invariant days == AllocatedDays(cap[..p], widths[..p])
    {
      assert cap[..p + 1][..p] == cap[..p] && widths[..p + 1][..p] == widths[..p];
      days := days + cap[p] * widths[p] * 5;
    }
    assert cap[..cap.Length] == cap[..] && widths[..cap.Length] == widths;
  }

  /** One quantum step of a period frees at most a quantum's days. */
  lemma StepCost(cap: seq<int>, widths: seq<nat>, p: nat, value: int)
    requires |widths| == |cap| && p < |cap| && value <= cap[p] <= value + QUANTUM
    ensures AllocatedDays(cap[p := value], widths) + QuantumDays(widths[p]) >= AllocatedDays(cap, widths)
  {
    AllocatedUpdate(cap, widths, p, value);
    ScaleMonotone(cap[p] - value, QUANTUM, widths[p]);
    assert (value - cap[p]) * widths[p] == -((cap[p] - value) * widths[p]);
  }

  /** Take quanta from one period while it can spare them and the budget is exceeded. */
  method TrimPeriod(cap: array<int>, p: nat, widths: seq<nat>, required: int, budget: real)
    requires |widths| == cap.Length && p < cap.Length
    modifies cap
    ensures forall k :: 0 <= k < cap.Length && k != p ==> cap[k] == old(cap[k])
    ensures Min(old(cap[p]), required) <= cap[p] <= old(cap[p])
    ensures cap[p] == required || (old(cap[p]) - cap[p]) % QUANTUM == 0
    ensures AllocatedDays(cap[..], widths) as real <= budget || cap[p] <= required
    ensures cap[p] == old(cap[p])
         || (AllocatedDays(cap[..], widths) + QuantumDays(widths[p])) as real > budget
    ensures AllocatedDays(old(cap[..]), widths) as real <= budget ==> cap[p] == old(cap[p])
  {
    hide AllocatedDays, QuantumDays;
    var staffed := CurrentAllocation(cap, widths);
    ghost var start := cap[..];
    while cap[p] > required && staffed as real > budget
      invariant staffed == AllocatedDays(cap[..], widths)
      invariant forall k :: 0 <= k < cap.Length && k != p ==> cap[k] == start[k]
      invariant Min(start[p], required) <= cap[p] <= start[p]
      invariant cap[p] == required || (start[p] - cap[p]) % QUANTUM == 0
      invariant cap[p] == start[p] || (staffed + QuantumDays(widths[p])) as real > budget
      invariant cap[p] == start[p] ==> cap[..] == start
      invariant AllocatedDays(start, widths) as real <= budget ==> cap[p] == start[p]
      decreases cap[p] - required
    {
      ghost var before := cap[..];
      cap[p] := Max(required, cap[p] - QUANTUM);
      assert cap[..] == before[p := cap[p]];
      StepCost(before, widths, p, cap[p]);
      staffed := CurrentAllocation(cap, widths);
    }
  }

  method TrimToBuffer(cap: array<int>, widths: seq<nat>, required: seq<int>, order: seq<nat>, budget: real)
    requires |widths| == |required| == cap.Length && IsOrdering(order, cap.Length)
    modifies cap
    ensures IsTrimmed(cap[..], old(cap[..]), widths, required, order, budget)
  {
    hide AllocatedDays, QuantumDays;
    ghost var start := cap[..];
    ghost var touched: nat := 0;
    for i := 0 to |order|
      invariant forall k :: 0 <= k < cap.Length ==> Min(start[k], required[k]) <= cap[k] <= start[k]
      invariant forall k :: 0 <= k < cap.Length ==> cap[k] == required[k] || (start[k] - cap[k]) % QUANTUM == 0
      invariant forall j :: i <= j < |order| ==> cap[order[j]] == start[order[j]]
      invariant AllocatedDays(cap[..], widths) as real <= budget
             || forall j :: 0 <= j < i ==> cap[order[j]] <= required[order[j]]
      invariant forall j, k :: 0 <= j < k < |order| && cap[order[k]] < start[order[k]] ==> cap[order[j]] <= required[order[j]]
      invariant cap[..] == start
             || (touched < cap.Length && cap[touched] < start[touched]
                 && (AllocatedDays(cap[..], widths) + QuantumDays(widths[touched])) as real > budget)
    {
      var p := order[i];
      assert p in order;
      ghost var before := cap[..];
      assert before[p] == start[p];
      TrimPeriod(cap, p, widths, required[p], budget);
      assert cap[..] == before[p := cap[p]];
      if cap[p] < before[p] {
        touched := p;
        assert forall j :: 0 <= j < i ==> order[j] != p;
      } else {
        assert cap[..] == before;
      }
    }
    forall p | 0 <= p < cap.Length && AllocatedDays(cap[..], widths) as real > budget
      ensures cap[p] <= required[p]
    {
      assert p in order;
    }
    if cap[..] != start {
      assert cap[..][touched] < start[touched];
    }
  }

  /** Everything one role contributes to the derivation, period by period. */
  datatype RoleRows = RoleRows(avgs: seq<real>, peaks: seq<real>, named: seq<nat>, floor: nat, cap: Option<nat>)

  type RoleInput = r: RoleRows | |r.avgs| == |r.peaks| == |r.named| witness RoleRows([], [], [], 0, None)

  ghost predicate WellFormed(input: RoleInput, periods: nat) {
    |input.avgs| == periods
  }

  function RoleInputs(resourceTypes: seq<ResourceType>, totalWeeks: nat, periodWeeks: nat,
                      peaks: seq<real>, avgs: seq<real>, config: EnvelopeConfig, id: Id): (r: RoleInput)
    requires periodWeeks > 0
    requires |peaks| == |avgs| == PeriodCount(totalWeeks, periodWeeks)
    ensures WellFormed(r, PeriodCount(totalWeeks, periodWeeks))
  {
    var rt := FindResourceType(resourceTypes, id);
    RoleRows(
      avgs, peaks,
      seq(PeriodCount(totalWeeks, periodWeeks), p requires 0 <= p => NamedFloor(rt, p, totalWeeks, periodWeeks)),
      if id in config.minFloor then config.minFloor[id] else 0,
      if id in config.maxCap then Some(config.maxCap[id]) else None)
  }

  function Buffered(amount: real, factor: real): real {
    amount * factor
  }

  /** Demand, protected people, then the configured floor for whatever still falls short of it. */
  function Initial(input: RoleInput, buffer: real): (r: seq<int>)
    ensures |r| == |input.avgs|
  {
    seq(|input.avgs|, p requires 0 <= p < |input.avgs| =>
      StartingHeadcount(Buffered(input.avgs[p], buffer), input.peaks[p], input.named[p], input.floor))
  }

  function StartingHeadcount(bufferedAverage: real, peak: real, named: nat, floor: nat): (r: nat)
    ensures Max(Max(floor, named), QuantizeUp(peak)) <= r
  {
    var staffed := Max(Max(QuantizeUp(bufferedAverage), QuantizeUp(peak)), named);
    if staffed < floor then
      assert floor as real <= QuantizeUp(floor as real) as real;
      QuantizeUp(floor as real)
    else staffed
  }

  function FloorRow(input: RoleInput): (r: seq<int>)
    ensures |r| == |input.named|
  {
    seq(|input.named|, p requires 0 <= p < |input.named| => Max(QuantizeUp(input.floor as real), input.named[p]))
  }

  function PeakRow(input: RoleInput): (r: seq<int>)
    ensures |r| == |input.peaks|
  {
    seq(|input.peaks|, p requires 0 <= p < |input.peaks| => QuantizeUp(input.peaks[p]))
  }

  /** The quantised lower bound that smoothing restores and trimming respects. */
  function RequiredRow(input: RoleInput): (r: seq<int>)
    ensures |r| == |input.named|
  {
    Raise(FloorRow(input), PeakRow(input))
  }

  function Smoothed(mode: SmoothingMode, row: seq<int>, delta: nat, bound: seq<int>): (r: seq<int>)
    requires |bound| == |row|
    ensures |r| == |row|
  {
    if mode.Exact? then row else Pass(row, delta, bound)
  }

  function Capped(row: seq<int>, cap: Option<nat>): (r: seq<int>)
    ensures |r| == |row|
  {
    seq(|row|, p requires 0 <= p < |row| => if cap.Some? then Min(row[p], cap.value) else row[p])
  }

  function SmoothedRow(input: RoleInput, config: EnvelopeConfig, buffer: real): (r: seq<int>)
    ensures |r| == |input.named|
  {
    Smoothed(config.smoothingMode, Initial(input, buffer), config.maxDeltaPerPeriod, RequiredRow(input))
  }

  function Untrimmed(input: RoleInput, config: EnvelopeConfig, buffer: real): (r: seq<int>)
    ensures |r| == |input.named|
  {
    Capped(SmoothedRow(input, config, buffer), input.cap)
  }

  /** Demand days of one week: five times the average of the period the week falls in. */
  function WeekDemand(avgs: seq<real>, periodWeeks: nat, week: nat): real
    requires periodWeeks > 0
  {
    if week / periodWeeks < |avgs| then avgs[week / periodWeeks] * 5.0 else 0.0
  }

  function DemandDays(avgs: seq<real>, periodWeeks: nat, weeks: nat): real
    requires periodWeeks > 0
  {
    if weeks == 0 then 0.0 else DemandDays(avgs, periodWeeks, weeks - 1) + WeekDemand(avgs, periodWeeks, weeks - 1)
  }

  lemma WeekInPeriod(week: nat, period: nat, periodWeeks: nat)
    requires periodWeeks > 0 && period * periodWeeks <= week < (period + 1) * periodWeeks
    ensures week / periodWeeks == period
  {
    var q := week / periodWeeks;
    assert week == q * periodWeeks + week % periodWeeks;
    if q < period {
      ScaleMonotone(q + 1, period, periodWeeks);
    } else if q > period {
      ScaleMonotone(period + 1, q, periodWeeks);
    }
  }

  lemma ScaleMonotone(a: int, b: int, scale: nat)
    requires a <= b
    ensures a * scale <= b * scale
  {
  }

  method FillPeriod(days: array<real>, avgs: seq<real>, p: nat, totalWeeks: nat, periodWeeks: nat)
    requires periodWeeks > 0 && p < |avgs| && days.Length == totalWeeks + 1
    modifies days
    ensures forall w :: 0 <= w < days.Length && w < p * periodWeeks ==> days[w] == old(days[w])
    ensures forall w :: 0 <= w < days.Length && p * periodWeeks <= w < (p + 1) * periodWeeks ==>
                          days[w] == WeekDemand(avgs, periodWeeks, w)
    ensures forall w :: 0 <= w < days.Length && (p + 1) * periodWeeks <= w ==> days[w] == old(days[w])
  {
    var first, stop := p * periodWeeks, (p + 1) * periodWeeks;
    var week := first;
    while week < Min(stop, totalWeeks + 1)
      invariant first <= week <= stop || week == first
      invariant forall w :: 0 <= w < days.Length && (w < first || w >= week) ==> days[w] == old(days[w])
      invariant forall w :: 0 <= w < days.Length && first <= w < week ==> days[w] == WeekDemand(avgs, periodWeeks, w)
    {
      WeekInPeriod(week, p, periodWeeks);
      days[week] := avgs[p] * 5.0;
      week := week + 1;
    }
  }

  method TotalDemand(avgs: seq<real>, totalWeeks: nat, periodWeeks: nat) returns (total: real)
    requires periodWeeks > 0
    ensures total == DemandDays(avgs, periodWeeks, totalWeeks + 1)
  {
    var days := new real[totalWeeks + 1](_ => 0.0);
    for p := 0 to |avgs|
      invariant forall w :: 0 <= w < days.Length && w < p * periodWeeks ==> days[w] == WeekDemand(avgs, periodWeeks, w)
      invariant forall w :: 0 <= w < days.Length && w >= p * periodWeeks ==> days[w] == 0.0
    {
      ScaleMonotone(p, p + 1, periodWeeks);
      FillPeriod(days, avgs, p, totalWeeks, periodWeeks);
    }
    forall w | 0 <= w < days.Length
      ensures days[w] == WeekDemand(avgs, periodWeeks, w)
    {
      NoDemandBeyond(|avgs|, periodWeeks, w);
    }
    total := SumDays(days, avgs, periodWeeks);
  }

  method SumDays(days: array<real>, avgs: seq<real>, periodWeeks: nat) returns (total: real)
    requires periodWeeks > 0
    requires forall w :: 0 <= w < days.Length ==> days[w] == WeekDemand(avgs, periodWeeks, w)
    ensures total == DemandDays(avgs, periodWeeks, days.Length)
  {
    total := 0.0;
    for w := 0 to days.Length
      invariant total == DemandDays(avgs, periodWeeks, w)
    {
      total := total + days[w];
    }
  }

  lemma NoDemandBeyond(periods: nat, periodWeeks: nat, week: nat)
    requires periodWeeks > 0
    ensures week < periods * periodWeeks <==> week / periodWeeks < periods
  {
    var q := week / periodWeeks;
    assert week == q * periodWeeks + week % periodWeeks;
    if q < periods {
      ScaleMonotone(q + 1, periods, periodWeeks);
    } else {
      ScaleMonotone(periods, q, periodWeeks);
    }
  }

  function Widths(totalWeeks: nat, periodWeeks: nat): (r: seq<nat>)
    requires periodWeeks > 0
    ensures |r| == PeriodCount(totalWeeks, periodWeeks)
  {
    seq(PeriodCount(totalWeeks, periodWeeks), p requires 0 <= p =>
      Max(0, PeriodEnd(p, totalWeeks, periodWeeks) - p * periodWeeks))
  }

  function LeastUtilisedFirst(avgs: seq<real>, cap: seq<int>): seq<nat>
    requires |avgs| == |cap|
  {
    Sorting.SortBy(Indices(|cap|), ByUtilisation(avgs, cap))
  }

  /** A row trimmed to the allocation budget, when there is any demand to derive one from. */
  ghost predicate IsBudgetedFrom(row: seq<int>, start: seq<int>, input: RoleInput, buffer: real, totalWeeks: nat, periodWeeks: nat)
    requires periodWeeks > 0 && WellFormed(input, PeriodCount(totalWeeks, periodWeeks))
    requires |start| == |input.avgs|
  {
    var demand := DemandDays(input.avgs, periodWeeks, totalWeeks + 1);
    if demand <= 0.0 then row == start
    else IsTrimmed(row, start, Widths(totalWeeks, periodWeeks), RequiredRow(input),
                   LeastUtilisedFirst(input.avgs, start), Buffered(demand, 1.0 + buffer))
  }

  ghost predicate IsBudgeted(row: seq<int>, input: RoleInput, config: EnvelopeConfig, buffer: real, totalWeeks: nat, periodWeeks: nat)
    requires periodWeeks > 0 && WellFormed(input, PeriodCount(totalWeeks, periodWeeks))
  {
    IsBudgetedFrom(row, Untrimmed(input, config, buffer), input, config.allocationBuffer, totalWeeks, periodWeeks)
  }

  /** The envelope row of one role. */
  ghost predicate IsEnvelope(row: seq<int>, input: RoleInput, config: EnvelopeConfig, buffer: real, totalWeeks: nat, periodWeeks: nat)
    requires periodWeeks > 0 && WellFormed(input, PeriodCount(totalWeeks, periodWeeks))
  {
    exists budgeted ::
      && IsBudgeted(budgeted, input, config, buffer, totalWeeks, periodWeeks)
      && |budgeted| == |input.named|
      && row == Raise(budgeted, input.named)
  }

  function Need(input: RoleInput, p: nat): int
    requires p < |input.named|
  {
    Max(Max(input.floor, input.named[p]), QuantizeUp(input.peaks[p]))
  }

  /** Coverage before trimming: the need, unless the maximum says less. */
  lemma UntrimmedCovers(input: RoleInput, config: EnvelopeConfig, buffer: real, p: nat)
    requires p < |input.named|
    ensures Untrimmed(input, config, buffer)[p] >=
              if input.cap.Some? then Min(input.cap.value, Need(input, p)) else Need(input, p)
  {
  }

  /** The sandwich: every stage together keeps each period between its need and its maximum. */
  lemma EnvelopeSandwich(row: seq<int>, input: RoleInput, config: EnvelopeConfig, buffer: real,
                         totalWeeks: nat, periodWeeks: nat, p: nat)
    requires periodWeeks > 0 && WellFormed(input, PeriodCount(totalWeeks, periodWeeks))
    requires IsEnvelope(row, input, config, buffer, totalWeeks, periodWeeks) && p < |row|
    ensures p < |input.named|
    ensures input.cap.None? ==> Need(input, p) <= row[p]
    ensures input.cap.Some? ==>
              Max(input.named[p], Min(input.cap.value, Need(input, p))) <= row[p] <= Max(input.cap.value, input.named[p])
  {
    var budgeted :| && IsBudgeted(budgeted, input, config, buffer, totalWeeks, periodWeeks)
                    && |budgeted| == |input.named| && row == Raise(budgeted, input.named);
    UntrimmedCovers(input, config, buffer, p);
    assert RequiredRow(input)[p] >= Need(input, p);
    var start := Untrimmed(input, config, buffer);
    assert Min(start[p], RequiredRow(input)[p]) <= budgeted[p] <= start[p];
  }

  /** Without a maximum in the way, smoothing leaves ramps wherever the needs themselves allow them. */
  lemma UncappedRamps(input: RoleInput, config: EnvelopeConfig, buffer: real)
    requires input.cap.None? && !config.smoothingMode.Exact?
    requires RampBounded(RequiredRow(input), config.maxDeltaPerPeriod)
    requires AtMost(RequiredRow(input), Initial(input, buffer))
    ensures RampBounded(Untrimmed(input, config, buffer), config.maxDeltaPerPeriod)
    ensures IsRampMinimum(Untrimmed(input, config, buffer), Initial(input, buffer), config.maxDeltaPerPeriod)
  {
    var start := Initial(input, buffer);
    RampedBoundsSettleAtOnce(start, config.maxDeltaPerPeriod, RequiredRow(input));
    SmoothIsRampMinimum(start, config.maxDeltaPerPeriod);
    assert Untrimmed(input, config, buffer) == Smooth(start, config.maxDeltaPerPeriod);
  }

  function PassLimit(mode: SmoothingMode): nat {
    match mode
    case Gentle => 5
    case Tight => 1
    case Exact => 0
  }

  /**
   * The pass loop over all roles. It stops early only when a pass wrote nothing for any
   * role, and however many passes it makes the values are those of the first one.
   */
  method SmoothAll(rows: map<Id, seq<int>>, planned: seq<Id>, passes: nat, delta: nat,
                   floors: map<Id, seq<int>>, needs: map<Id, seq<int>>)
    returns (smoothed: map<Id, seq<int>>, settled: bool)
    requires NoDuplicates(planned)
    requires forall id :: id in planned ==> id in rows && id in floors && id in needs
    requires forall id :: id in planned ==> |rows[id]| == |floors[id]| == |needs[id]|
    ensures smoothed.Keys == rows.Keys
    ensures forall id :: id in planned ==>
              smoothed[id] == if passes == 0 then rows[id] else Pass(rows[id], delta, Raise(floors[id], needs[id]))
    ensures settled ==> forall id :: id in planned ==>
                          RampBounded(smoothed[id], delta) && AtMost(Raise(floors[id], needs[id]), smoothed[id])
  {
    hide RampBounded, AtMost;
    smoothed := rows;
    settled := false;
    for pass := 0 to passes
      invariant smoothed.Keys == rows.Keys
      invariant forall id :: id in planned ==>
                  smoothed[id] == if pass == 0 then rows[id] else Pass(rows[id], delta, Raise(floors[id], needs[id]))
      invariant !settled
    {
      ghost var before := smoothed;
      var changed;
      smoothed, changed := SmoothOnce(smoothed, planned, delta, floors, needs);
      forall id | id in planned
        ensures smoothed[id] == Pass(rows[id], delta, Raise(floors[id], needs[id]))
        ensures !changed ==> RampBounded(smoothed[id], delta) && AtMost(Raise(floors[id], needs[id]), smoothed[id])
      {
        PassSettles(rows[id], delta, Raise(floors[id], needs[id]));
        if !changed {
          SettledStays(before[id], delta, Raise(floors[id], needs[id]));
        }
      }
      if !changed {
        settled := true;
        break;
      }
    }
  }

  lemma SettledStays(row: seq<int>, delta: nat, bound: seq<int>)
    requires |bound| == |row| && RampBounded(row, delta) && AtMost(bound, row)
    ensures Pass(row, delta, bound) == row
  {
    SmoothFixed(row, delta);
  }

  /** One pass over all roles. */
  method SmoothOnce(rows: map<Id, seq<int>>, planned: seq<Id>, delta: nat, floors: map<Id, seq<int>>, needs: map<Id, seq<int>>)
    returns (smoothed: map<Id, seq<int>>, changed: bool)
    requires NoDuplicates(planned)
    requires forall id :: id in planned ==> id in rows && id in floors && id in needs
    requires forall id :: id in planned ==> |rows[id]| == |floors[id]| == |needs[id]|
    ensures smoothed.Keys == rows.Keys
    ensures forall id :: id in planned ==> smoothed[id] == Pass(rows[id], delta, Raise(floors[id], needs[id]))
    ensures !changed ==> forall id :: id in planned ==>
              RampBounded(rows[id], delta) && AtMost(Raise(floors[id], needs[id]), rows[id])
  {
    smoothed, changed := rows, false;
    for i := 0 to |planned|
      invariant smoothed.Keys == rows.Keys
      invariant forall j :: 0 <= j < i ==>
                  smoothed[planned[j]] == Pass(rows[planned[j]], delta, Raise(floors[planned[j]], needs[planned[j]]))
      invariant forall j :: i <= j < |planned| ==> smoothed[planned[j]] == rows[planned[j]]
      invariant !changed ==> forall j :: 0 <= j < i ==>
                  && RampBounded(rows[planned[j]], delta)
                  && AtMost(Raise(floors[planned[j]], needs[planned[j]]), rows[planned[j]])
    {
      var id := planned[i];
      assert id in planned;
      var row, wrote := SmoothRow(smoothed[id], delta, floors[id], needs[id]);
      changed := changed || wrote;
      smoothed := smoothed[id := row];
    }
  }

  method SmoothRow(row: seq<int>, delta: nat, floors: seq<int>, needs: seq<int>) returns (smoothed: seq<int>, wrote: bool)
    requires |row| == |floors| == |needs|
    ensures smoothed == Pass(row, delta, Raise(floors, needs))
    ensures !wrote ==> RampBounded(row, delta) && AtMost(Raise(floors, needs), row)
  {
    var cap := new int[|row|](k requires 0 <= k < |row| => row[k]);
    assert cap[..] == row;
    wrote := SmoothInPlace(cap, delta, floors, needs);
    smoothed := cap[..];
  }

  method TrimRow(start: seq<int>, input: RoleInput, buffer: real, totalWeeks: nat, periodWeeks: nat)
    returns (budgeted: seq<int>)
    requires periodWeeks > 0 && WellFormed(input, PeriodCount(totalWeeks, periodWeeks))
    requires |start| == |input.avgs|
    ensures IsBudgetedFrom(budgeted, start, input, buffer, totalWeeks, periodWeeks)
  {
    budgeted := start;
    var demand := TotalDemand(input.avgs, totalWeeks, periodWeeks);
    if demand > 0.0 {
      var cap := new int[|start|](k requires 0 <= k < |start| => start[k]);
      assert cap[..] == start;
      OrderingOfSort(input.avgs, start);
      var order := LeastUtilisedFirst(input.avgs, start);
      TrimToBuffer(cap, Widths(totalWeeks, periodWeeks), RequiredRow(input), order, Buffered(demand, 1.0 + buffer));
      budgeted := cap[..];
    }
  }

  method DeriveCapacityEnvelope(resourceTypes: seq<ResourceType>, totalWeeks: nat, periodWeeks: nat, planned: seq<Id>,
                                peaks: map<Id, seq<real>>, avgs: map<Id, seq<real>>, config: EnvelopeConfig, buffer: real)
    returns (capacity: map<Id, seq<int>>)
    requires periodWeeks > 0 && NoDuplicates(planned)
    requires forall id :: id in planned ==> id in peaks && id in avgs
    requires forall id :: id in planned ==> |peaks[id]| == |avgs[id]| == PeriodCount(totalWeeks, periodWeeks)
    ensures forall id :: id in capacity <==> id in planned
    ensures forall id :: id in planned ==>
              IsEnvelope(capacity[id], RoleInputs(resourceTypes, totalWeeks, periodWeeks, peaks[id], avgs[id], config, id),
                         config, buffer, totalWeeks, periodWeeks)
  {
    var inputs := map id | id in planned :: RoleInputs(resourceTypes, totalWeeks, periodWeeks, peaks[id], avgs[id], config, id);
    capacity := DeriveFromInputs(inputs, planned, config, buffer, totalWeeks, periodWeeks);
  }

  method SmoothInputs(inputs: map<Id, RoleInput>, planned: seq<Id>, config: EnvelopeConfig, buffer: real, ghost periods: nat)
    returns (smoothed: map<Id, seq<int>>)
    requires NoDuplicates(planned)
    requires forall id :: id in inputs <==> id in planned
    requires forall id :: id in inputs ==> WellFormed(inputs[id], periods)
    ensures smoothed.Keys == inputs.Keys
    ensures forall id :: id in inputs ==> smoothed[id] == SmoothedRow(inputs[id], config, buffer)
  {
    hide RampBounded, AtMost, Initial, FloorRow, PeakRow, Raise, Pass;
    var rows := map id | id in inputs :: Initial(inputs[id], buffer);
    var floors := map id | id in inputs :: FloorRow(inputs[id]);
    var needs := map id | id in inputs :: PeakRow(inputs[id]);
    var settled;
    smoothed, settled := SmoothAll(rows, planned, PassLimit(config.smoothingMode), config.maxDeltaPerPeriod, floors, needs);
  }

  method DeriveFromInputs(inputs: map<Id, RoleInput>, planned: seq<Id>, config: EnvelopeConfig, buffer: real,
                          totalWeeks: nat, periodWeeks: nat)
    returns (capacity: map<Id, seq<int>>)
    requires periodWeeks > 0 && NoDuplicates(planned)
    requires forall id :: id in inputs <==> id in planned
    requires forall id :: id in inputs ==> WellFormed(inputs[id], PeriodCount(totalWeeks, periodWeeks))
    ensures forall id :: id in capacity <==> id in planned
    ensures forall id :: id in planned ==> IsEnvelope(capacity[id], inputs[id], config, buffer, totalWeeks, periodWeeks)
  {
    var smoothed := SmoothInputs(inputs, planned, config, buffer, PeriodCount(totalWeeks, periodWeeks));
    capacity := map[];
    for i := 0 to |planned|
      invariant forall id :: id in planned[..i] <==> id in capacity
      invariant forall id :: id in capacity ==>
                  id in inputs && IsEnvelope(capacity[id], inputs[id], config, buffer, totalWeeks, periodWeeks)
    {
      var id := planned[i];
      var row := FinishRow(smoothed[id], inputs[id], config, buffer, totalWeeks, periodWeeks);
      capacity := capacity[id := row];
    }
  }

  /** Cap, trim and protect one smoothed row. */
  method FinishRow(row: seq<int>, input: RoleInput, config: EnvelopeConfig, ghost buffer: real, totalWeeks: nat, periodWeeks: nat)
    returns (final: seq<int>)
    requires periodWeeks > 0 && WellFormed(input, PeriodCount(totalWeeks, periodWeeks))
    requires row == SmoothedRow(input, config, buffer)
    ensures IsEnvelope(final, input, config, buffer, totalWeeks, periodWeeks)
  {
    var start := Capped(row, input.cap);
    var budgeted := TrimRow(start, input, config.allocationBuffer, totalWeeks, periodWeeks);
    assert IsBudgeted(budgeted, input, config, buffer, totalWeeks, periodWeeks);
    final := Raise(budgeted, input.named);
  }
}
