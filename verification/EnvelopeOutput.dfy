/**
 * Publishing an envelope: the weekly headcount of every planned role, the ranges of weeks
 * over which nothing changes, and the totals computed from those ranges.
 */
module EnvelopeOutput {
  import opened Common
  import opened Scheduler
  import opened Publication
  import opened Plan
  import opened Envelope

  datatype Range = Range(startWeek: nat, endWeek: nat, coarsePeriod: nat)

  /** A rectangular table: one row of weekly headcounts per planned role. */
  ghost predicate Table(weekly: seq<seq<nat>>, weeks: nat) {
    forall r :: 0 <= r < |weekly| ==> |weekly[r]| == weeks
  }

  /** One week of the table, weighted per role. */
  function WeekValue(weekly: seq<seq<nat>>, weights: seq<nat>, week: nat): nat
    requires |weights| == |weekly| && forall r :: 0 <= r < |weekly| ==> week < |weekly[r]|
  {
    if weekly == [] then 0
    else
      var last := |weekly| - 1;
      WeekValue(weekly[..last], weights[..last], week) + weekly[last][week] * weights[last]
  }

  function WeeksValue(weekly: seq<seq<nat>>, weights: seq<nat>, start: nat, stop: nat): nat
    requires |weights| == |weekly| && start <= stop
    requires forall r :: 0 <= r < |weekly| ==> stop <= |weekly[r]|
    decreases stop - start
  {
    if start == stop then 0
    else WeeksValue(weekly, weights, start, stop - 1) + WeekValue(weekly, weights, stop - 1)
  }

  function Ones(n: nat): (r: seq<nat>)
    ensures |r| == n && forall i :: 0 <= i < n ==> r[i] == 1
  {
    seq(n, _ => 1)
  }

  ghost predicate Uniform(weekly: seq<seq<nat>>, start: nat, stop: nat)
    requires start <= stop && forall r :: 0 <= r < |weekly| ==> stop <= |weekly[r]|
  {
    forall r, week :: 0 <= r < |weekly| && start <= week < stop ==> weekly[r][week] == weekly[r][start]
  }

  lemma {:induction false} WeekValueSame(weekly: seq<seq<nat>>, weights: seq<nat>, a: nat, b: nat)
    requires |weights| == |weekly|
    requires forall r :: 0 <= r < |weekly| ==> a < |weekly[r]| && b < |weekly[r]| && weekly[r][a] == weekly[r][b]
    ensures WeekValue(weekly, weights, a) == WeekValue(weekly, weights, b)
  {
    if weekly == [] {
    } else {
      var last := |weekly| - 1;
      WeekValueSame(weekly[..last], weights[..last], a, b);
    }
  }

  lemma {:induction false} UniformValue(weekly: seq<seq<nat>>, weights: seq<nat>, start: nat, stop: nat)
    requires |weights| == |weekly| && start < stop
    requires forall r :: 0 <= r < |weekly| ==> stop <= |weekly[r]|
    requires Uniform(weekly, start, stop)
    ensures WeeksValue(weekly, weights, start, stop) == WeekValue(weekly, weights, start) * (stop - start)
    decreases stop
  {
    if stop - 1 > start {
      UniformValue(weekly, weights, start, stop - 1);
      forall r | 0 <= r < |weekly|
        ensures weekly[r][stop - 1] == weekly[r][start]
      {
      }
      WeekValueSame(weekly, weights, stop - 1, start);
      var value := WeekValue(weekly, weights, start);
      assert value * (stop - start) == value * (stop - 1 - start) + value;
    } else {
      assert WeeksValue(weekly, weights, start, start) == 0;
    }
  }

  lemma {:induction false} WeeksValueSplit(weekly: seq<seq<nat>>, weights: seq<nat>, start: nat, middle: nat, stop: nat)
    requires |weights| == |weekly| && start <= middle <= stop
    requires forall r :: 0 <= r < |weekly| ==> stop <= |weekly[r]|
    ensures WeeksValue(weekly, weights, start, stop)
         == WeeksValue(weekly, weights, start, middle) + WeeksValue(weekly, weights, middle, stop)
    decreases stop
  {
    if middle >= stop {
    } else {
      WeeksValueSplit(weekly, weights, start, middle, stop - 1);
    }
  }

  // ── Weekly values ──────────────────────────────────────────────────────────

  function EnvelopeAt(row: seq<nat>, period: nat): nat {
    if period < |row| then row[period] else 0
  }

  function EnvelopeInWeek(row: seq<nat>, periodWeeks: nat, week: nat): nat
    requires periodWeeks > 0
  {
    EnvelopeAt(row, week / periodWeeks)
  }

  /** The whole published row of a role. */
  ghost predicate IsWeekly(values: seq<nat>, rt: ResourceType, row: seq<nat>, periodWeeks: nat, weeks: nat)
    requires periodWeeks > 0
  {
    |values| == weeks && forall w :: 0 <= w < weeks ==> values[w] == Published(rt, EnvelopeInWeek(row, periodWeeks, w), w)
  }

  method WeeklyValue(rt: ResourceType, envelopeHeadcount: nat, week: nat) returns (value: nat)
    ensures value == Published(rt, envelopeHeadcount, week)
  {
    var protectedFte := NamedCapacityFte(rt, week);
    var inRoleWindow := IsWithinRoleWindow(rt, week);
    var canMaterializeSynthetic := CanMaterializeSyntheticCapacity(rt, envelopeHeadcount);
    value := if !inRoleWindow || (!canMaterializeSynthetic && protectedFte == 0)
             then protectedFte else Max(envelopeHeadcount, protectedFte);
  }

  method WeeklyValues(rt: ResourceType, row: seq<nat>, periodWeeks: nat, horizonEnd: nat) returns (values: seq<nat>)
    requires periodWeeks > 0
    ensures IsWeekly(values, rt, row, periodWeeks, horizonEnd)
  {
    values := [];
    for week := 0 to horizonEnd
      invariant IsWeekly(values, rt, row, periodWeeks, week)
    {
      var value := WeeklyValue(rt, EnvelopeInWeek(row, periodWeeks, week), week);
      values := values + [value];
    }
  }

  // ── Horizon ────────────────────────────────────────────────────────────────

  ghost predicate EndsIn(resource: NamedResource, end: int) {
    || resource.endWeek == Some(end)
    || exists segment :: segment in resource.capacitySegments && segment.endWeek == Week(end)
  }

  ghost predicate SomeoneEnds(roles: seq<ResourceType>, end: int) {
    exists rt, resource :: rt in roles && resource in rt.namedResources && EndsIn(resource, end)
  }

  /** The least horizon past the demand and past every finite end of the planned roles' people. */
  ghost predicate IsHorizon(horizon: nat, roles: seq<ResourceType>, outputTotalWeeks: nat) {
    && outputTotalWeeks + 1 <= horizon
    && (forall end :: SomeoneEnds(roles, end) ==> end + 1 <= horizon)
    && (horizon == outputTotalWeeks + 1 || SomeoneEnds(roles, horizon - 1))
  }

  method ExtendForResource(start: nat, resource: NamedResource) returns (horizon: nat)
    ensures start <= horizon
    ensures forall end :: EndsIn(resource, end) ==> end + 1 <= horizon
    ensures horizon == start || EndsIn(resource, horizon - 1)
  {
    horizon := start;
    for i := 0 to |resource.capacitySegments|
      invariant start <= horizon
      invariant forall j :: 0 <= j < i && resource.capacitySegments[j].endWeek.Week? ==>
                              resource.capacitySegments[j].endWeek.week + 1 <= horizon
      invariant horizon == start || EndsIn(resource, horizon - 1)
    {
      var segment := resource.capacitySegments[i];
      assert segment in resource.capacitySegments;
      if segment.endWeek.Week? {
        horizon := Max(horizon, segment.endWeek.week + 1);
      }
    }
    if resource.endWeek.Some? {
      horizon := Max(horizon, resource.endWeek.value + 1);
    }
  }

  method HorizonEnd(roles: seq<ResourceType>, outputTotalWeeks: nat) returns (horizon: nat)
    ensures IsHorizon(horizon, roles, outputTotalWeeks)
  {
    horizon := outputTotalWeeks + 1;
    for i := 0 to |roles|
      invariant outputTotalWeeks + 1 <= horizon
      invariant forall j, resource, end :: 0 <= j < i && resource in roles[j].namedResources && EndsIn(resource, end) ==>
                                             end + 1 <= horizon
      invariant horizon == outputTotalWeeks + 1 || SomeoneEnds(roles, horizon - 1)
    {
      var rt := roles[i];
      assert rt in roles;
      for k := 0 to |rt.namedResources|
        invariant outputTotalWeeks + 1 <= horizon
        invariant forall j, resource, end :: 0 <= j < i && resource in roles[j].namedResources && EndsIn(resource, end) ==>
                                               end + 1 <= horizon
        invariant forall j, end :: 0 <= j < k && EndsIn(rt.namedResources[j], end) ==> end + 1 <= horizon
        invariant horizon == outputTotalWeeks + 1 || SomeoneEnds(roles, horizon - 1)
      {
        assert rt.namedResources[k] in rt.namedResources;
        horizon := ExtendForResource(horizon, rt.namedResources[k]);
      }
    }
  }

  // ── Runs of equal weeks ────────────────────────────────────────────────────

  predicate Changes(roles: seq<ResourceType>, weekly: seq<seq<nat>>, week: nat)
    requires |roles| == |weekly| && week > 0 && forall r :: 0 <= r < |weekly| ==> week < |weekly[r]|
  {
    exists r :: 0 <= r < |weekly| &&
      (weekly[r][week] != weekly[r][week - 1]
       || NamedCapacity(roles[r].namedResources, week) != NamedCapacity(roles[r].namedResources, week - 1))
  }

  /** Consecutive nonempty ranges from one week to another. */
  ghost predicate Chain(ranges: seq<Range>, start: nat, stop: nat) {
    if ranges == [] then start == stop
    else
      && Chain(ranges[..|ranges| - 1], start, ranges[|ranges| - 1].startWeek)
      && ranges[|ranges| - 1].startWeek < ranges[|ranges| - 1].endWeek == stop
  }

  ghost predicate GoodRange(range: Range, roles: seq<ResourceType>, weekly: seq<seq<nat>>, periodWeeks: nat, horizonEnd: nat)
    requires |roles| == |weekly| && periodWeeks > 0 && Table(weekly, horizonEnd)
  {
    && range.startWeek < range.endWeek <= horizonEnd
    && Uniform(weekly, range.startWeek, range.endWeek)
    && (forall week :: range.startWeek <= week < range.endWeek ==> week / periodWeeks == range.coarsePeriod)
    // a range starts only where a period does or where something changed
    && (range.startWeek == range.coarsePeriod * periodWeeks || (range.startWeek > 0 && Changes(roles, weekly, range.startWeek)))
  }

  ghost predicate GoodRanges(ranges: seq<Range>, roles: seq<ResourceType>, weekly: seq<seq<nat>>, periodWeeks: nat, horizonEnd: nat)
    requires |roles| == |weekly| && periodWeeks > 0 && Table(weekly, horizonEnd)
  {
    forall i :: 0 <= i < |ranges| ==> GoodRange(ranges[i], roles, weekly, periodWeeks, horizonEnd)
  }

  lemma AppendRun(ranges: seq<Range>, run: Range, roles: seq<ResourceType>, weekly: seq<seq<nat>>, periodWeeks: nat, horizonEnd: nat)
    requires |roles| == |weekly| && periodWeeks > 0 && Table(weekly, horizonEnd)
    requires GoodRanges(ranges, roles, weekly, periodWeeks, horizonEnd)
    requires run.startWeek < run.endWeek <= horizonEnd && Uniform(weekly, run.startWeek, run.endWeek)
    requires run.coarsePeriod * periodWeeks <= run.startWeek && run.endWeek <= (run.coarsePeriod + 1) * periodWeeks
    requires run.startWeek == run.coarsePeriod * periodWeeks || Changes(roles, weekly, run.startWeek)
    requires Chain(ranges, 0, run.startWeek)
    ensures GoodRanges(ranges + [run], roles, weekly, periodWeeks, horizonEnd)
    ensures Chain(ranges + [run], 0, run.endWeek)
  {
    forall w | run.startWeek <= w < run.endWeek
      ensures w / periodWeeks == run.coarsePeriod
    {
      WeekInPeriod(w, run.coarsePeriod, periodWeeks);
    }
    assert (ranges + [run])[..|ranges|] == ranges;
  }

  /** The runs of one coarse period, appended to those before it. */
  method SplitPeriod(before: seq<Range>, roles: seq<ResourceType>, weekly: seq<seq<nat>>, coarse: nat, periodWeeks: nat, horizonEnd: nat)
    returns (ranges: seq<Range>)
    requires |roles| == |weekly| && periodWeeks > 0 && Table(weekly, horizonEnd)
    requires coarse * periodWeeks < horizonEnd
    requires Chain(before, 0, coarse * periodWeeks)
    requires GoodRanges(before, roles, weekly, periodWeeks, horizonEnd)
    ensures Chain(ranges, 0, Min((coarse + 1) * periodWeeks, horizonEnd))
    ensures GoodRanges(ranges, roles, weekly, periodWeeks, horizonEnd)
  {
    ranges := before;
    var start: nat := coarse * periodWeeks;
    ScaleMonotone(coarse, coarse + 1, periodWeeks);
    var stop: nat := Min((coarse + 1) * periodWeeks, horizonEnd);
    assert start < stop by {
      assert (coarse + 1) * periodWeeks == coarse * periodWeeks + periodWeeks;
    }
    ranges := SplitWindow(before, roles, weekly, coarse, start, stop, periodWeeks, horizonEnd);
  }

  method SplitWindow(before: seq<Range>, roles: seq<ResourceType>, weekly: seq<seq<nat>>, coarse: nat, start: nat, stop: nat,
                     ghost periodWeeks: nat, ghost horizonEnd: nat)
    returns (ranges: seq<Range>)
    requires |roles| == |weekly| && periodWeeks > 0 && Table(weekly, horizonEnd)
    requires start == coarse * periodWeeks < stop <= (coarse + 1) * periodWeeks && stop <= horizonEnd
    requires Chain(before, 0, start)
    requires GoodRanges(before, roles, weekly, periodWeeks, horizonEnd)
    ensures Chain(ranges, 0, stop)
    ensures GoodRanges(ranges, roles, weekly, periodWeeks, horizonEnd)
  {
    ranges := before;
    var runStart := start;
    var week := start + 1;
    while week < stop
      invariant start <= runStart < week <= stop
      invariant Chain(ranges, 0, runStart)
      invariant Uniform(weekly, runStart, week)
      invariant runStart == start || Changes(roles, weekly, runStart)
      invariant GoodRanges(ranges, roles, weekly, periodWeeks, horizonEnd)
    {
      if Changes(roles, weekly, week) {
        AppendRun(ranges, Range(runStart, week, coarse), roles, weekly, periodWeeks, horizonEnd);
        ranges := ranges + [Range(runStart, week, coarse)];
        runStart := week;
      } else {
        forall r | 0 <= r < |weekly|
          ensures weekly[r][week] == weekly[r][runStart]
        {
          assert weekly[r][week] == weekly[r][week - 1] == weekly[r][runStart];
        }
      }
      week := week + 1;
    }
    if stop > runStart {
      AppendRun(ranges, Range(runStart, stop, coarse), roles, weekly, periodWeeks, horizonEnd);
      ranges := ranges + [Range(runStart, stop, coarse)];
    }
  }

  method SplitRuns(roles: seq<ResourceType>, weekly: seq<seq<nat>>, periodWeeks: nat, horizonEnd: nat) returns (ranges: seq<Range>)
    requires |roles| == |weekly| && periodWeeks > 0 && Table(weekly, horizonEnd) && horizonEnd > 0
    ensures Chain(ranges, 0, horizonEnd)
    ensures GoodRanges(ranges, roles, weekly, periodWeeks, horizonEnd)
  {
    ranges := [];
    var outputPeriods := PeriodCount(horizonEnd, periodWeeks);
    CeilingCovers(horizonEnd, periodWeeks);
    for coarse := 0 to outputPeriods
      invariant Chain(ranges, 0, Min(coarse * periodWeeks, horizonEnd))
      invariant GoodRanges(ranges, roles, weekly, periodWeeks, horizonEnd)
    {
      ScaleMonotone(coarse, outputPeriods - 1, periodWeeks);
      ranges := SplitPeriod(ranges, roles, weekly, coarse, periodWeeks, horizonEnd);
    }
  }

  lemma CeilingCovers(weeks: nat, periodWeeks: nat)
    requires periodWeeks > 0 && weeks > 0
    ensures (PeriodCount(weeks, periodWeeks) - 1) * periodWeeks < weeks <= PeriodCount(weeks, periodWeeks) * periodWeeks
  {
  }

  // ── Periods and totals ─────────────────────────────────────────────────────

  function RangeResources(ids: seq<Id>, weekly: seq<seq<nat>>, rates: seq<nat>, range: Range): (r: seq<RoleHeadcount>)
    requires |ids| == |weekly| == |rates| && range.startWeek <= range.endWeek
    requires forall r :: 0 <= r < |weekly| ==> range.startWeek < |weekly[r]|
    ensures |r| == |ids|
  {
    seq(|ids|, k requires 0 <= k < |ids| =>
      RoleHeadcount(ids[k], weekly[k][range.startWeek],
                    Times(weekly[k][range.startWeek] * (rates[k] * 5), range.endWeek - range.startWeek)))
  }

  function PricedRates(rates: seq<nat>): (r: seq<nat>)
    ensures |r| == |rates| && forall k :: 0 <= k < |rates| ==> r[k] == rates[k] * 5
  {
    seq(|rates|, k requires 0 <= k < |rates| => rates[k] * 5)
  }

  lemma {:induction false} ResourcesTotal(resources: seq<RoleHeadcount>, weekly: seq<seq<nat>>, week: nat)
    requires |resources| == |weekly| && forall r :: 0 <= r < |weekly| ==> week < |weekly[r]|
    requires forall k :: 0 <= k < |resources| ==> resources[k].headcount == weekly[k][week]
    ensures PeriodHeadcount(resources) == WeekValue(weekly, Ones(|weekly|), week)
  {
    if resources == [] {
    } else {
      var last := |resources| - 1;
      ResourcesTotal(resources[..last], weekly[..last], week);
      assert Ones(|weekly|)[..last] == Ones(last);
    }
  }

  /** One range's resources with its share of the cost and its headcount. */
  function Times(value: nat, weeks: nat): nat {
    value * weeks
  }

  lemma TimesZero(weeks: nat)
    ensures Times(0, weeks) == 0
  {
  }

  lemma TimesAdds(a: nat, b: nat, weeks: nat)
    ensures Times(a + b, weeks) == Times(a, weeks) + Times(b, weeks)
  {
  }

  method PriceRange(ids: seq<Id>, weekly: seq<seq<nat>>, rates: seq<nat>, range: Range)
    returns (resources: seq<RoleHeadcount>, cost: nat, headcount: nat)
    requires |ids| == |weekly| == |rates| && range.startWeek <= range.endWeek
    requires forall r :: 0 <= r < |weekly| ==> range.startWeek < |weekly[r]|
    ensures resources == RangeResources(ids, weekly, rates, range)
    ensures cost == Times(WeekValue(weekly, PricedRates(rates), range.startWeek), range.endWeek - range.startWeek)
    ensures headcount == WeekValue(weekly, Ones(|weekly|), range.startWeek) == PeriodHeadcount(resources)
  {
    hide Times;
    TimesZero(range.endWeek - range.startWeek);
    resources, cost, headcount := [], 0, 0;
    var width := range.endWeek - range.startWeek;
    ghost var priced := PricedRates(rates);
    for k := 0 to |ids|
      invariant resources == RangeResources(ids, weekly, rates, range)[..k]
      invariant cost == Times(WeekValue(weekly[..k], priced[..k], range.startWeek), width)
      invariant headcount == PeriodHeadcount(resources)
    {
      var weeklyHeadcount := weekly[k][range.startWeek];
      var costForPeriod := Times(weeklyHeadcount * (rates[k] * 5), width);
      assert weekly[..k + 1][..k] == weekly[..k] && priced[..k + 1][..k] == priced[..k];
      ghost var partial := WeekValue(weekly[..k], priced[..k], range.startWeek);
      TimesAdds(partial, weeklyHeadcount * priced[k], width);
      ghost var before := resources;
      resources := resources + [RoleHeadcount(ids[k], weeklyHeadcount, costForPeriod)];
      assert resources[..k] == before;
      cost := cost + costForPeriod;
      headcount := headcount + weeklyHeadcount;
    }
    assert weekly[..|ids|] == weekly && priced[..|ids|] == priced;
    ResourcesTotal(resources, weekly, range.startWeek);
  }

  /** The periods, one per range. */
  ghost predicate PeriodsOf(periods: seq<Period>, ranges: seq<Range>, ids: seq<Id>, weekly: seq<seq<nat>>, rates: seq<nat>, horizonEnd: nat)
    requires |ids| == |weekly| == |rates| && Table(weekly, horizonEnd)
  {
    && |periods| == |ranges|
    && forall i :: 0 <= i < |ranges| ==>
         && ranges[i].startWeek < ranges[i].endWeek <= horizonEnd
         && periods[i] == Period(i, ranges[i].startWeek, ranges[i].endWeek, RangeResources(ids, weekly, rates, ranges[i]))
  }

  /** `peak` is the greatest weekly total before `stop`. */
  ghost predicate IsPeak(peak: nat, weekly: seq<seq<nat>>, stop: nat)
    requires forall r :: 0 <= r < |weekly| ==> stop <= |weekly[r]|
  {
    && (forall week :: 0 <= week < stop ==> WeekValue(weekly, Ones(|weekly|), week) <= peak)
    && (peak > 0 ==> exists week :: 0 <= week < stop && WeekValue(weekly, Ones(|weekly|), week) == peak)
  }

  lemma PeakOverRange(peak: nat, weekly: seq<seq<nat>>, start: nat, stop: nat)
    requires start < stop && forall r :: 0 <= r < |weekly| ==> stop <= |weekly[r]|
    requires IsPeak(peak, weekly, start) && Uniform(weekly, start, stop)
    ensures IsPeak(Max(peak, WeekValue(weekly, Ones(|weekly|), start)), weekly, stop)
  {
    var value := WeekValue(weekly, Ones(|weekly|), start);
    forall week | start <= week < stop
      ensures WeekValue(weekly, Ones(|weekly|), week) == value
    {
      WeekValueSame(weekly, Ones(|weekly|), week, start);
    }
    if peak >= value && peak > 0 {
      var week :| 0 <= week < start && WeekValue(weekly, Ones(|weekly|), week) == peak;
    }
  }

  lemma RangeValue(weekly: seq<seq<nat>>, weights: seq<nat>, start: nat, stop: nat)
    requires |weights| == |weekly| && start < stop && forall r :: 0 <= r < |weekly| ==> stop <= |weekly[r]|
    requires Uniform(weekly, start, stop)
    ensures WeeksValue(weekly, weights, 0, stop)
         == WeeksValue(weekly, weights, 0, start) + WeekValue(weekly, weights, start) * (stop - start)
  {
    UniformValue(weekly, weights, start, stop);
    WeeksValueSplit(weekly, weights, 0, start, stop);
  }

  lemma PeriodsAppend(periods: seq<Period>, ranges: seq<Range>, i: nat, ids: seq<Id>, weekly: seq<seq<nat>>, rates: seq<nat>,
                      horizonEnd: nat, period: Period)
    requires |ids| == |weekly| == |rates| && Table(weekly, horizonEnd) && i < |ranges|
    requires PeriodsOf(periods, ranges[..i], ids, weekly, rates, horizonEnd)
    requires ranges[i].startWeek < ranges[i].endWeek <= horizonEnd
    requires period == Period(i, ranges[i].startWeek, ranges[i].endWeek, RangeResources(ids, weekly, rates, ranges[i]))
    ensures PeriodsOf(periods + [period], ranges[..i + 1], ids, weekly, rates, horizonEnd)
    ensures StaffedFteWeeks(periods + [period])
         == StaffedFteWeeks(periods) + PeriodHeadcount(period.resources) * (ranges[i].endWeek - ranges[i].startWeek)
  {
  }

  /** The running totals agree with the week-by-week table up to a week. */
  ghost predicate TotalsAt(weekly: seq<seq<nat>>, rates: seq<nat>, week: nat, cost: nat, peak: nat, staffed: nat)
    requires |weekly| == |rates| && forall r :: 0 <= r < |weekly| ==> week <= |weekly[r]|
  {
    && cost == WeeksValue(weekly, PricedRates(rates), 0, week)
    && staffed == WeeksValue(weekly, Ones(|weekly|), 0, week)
    && IsPeak(peak, weekly, week)
  }

  lemma TotalsStep(weekly: seq<seq<nat>>, rates: seq<nat>, start: nat, stop: nat, cost: nat, peak: nat, staffed: nat)
    requires |weekly| == |rates| && start < stop && forall r :: 0 <= r < |weekly| ==> stop <= |weekly[r]|
    requires Uniform(weekly, start, stop) && TotalsAt(weekly, rates, start, cost, peak, staffed)
    ensures var headcount := WeekValue(weekly, Ones(|weekly|), start);
            TotalsAt(weekly, rates, stop,
                     cost + Times(WeekValue(weekly, PricedRates(rates), start), stop - start),
                     Max(peak, headcount),
                     staffed + Times(headcount, stop - start))
  {
    RangeValue(weekly, PricedRates(rates), start, stop);
    RangeValue(weekly, Ones(|weekly|), start, stop);
    PeakOverRange(peak, weekly, start, stop);
  }

  /** The periods and totals accumulated so far. */
  datatype Running = Running(periods: seq<Period>, totalCost: nat, peakHeadcount: nat, staffedFteWeeks: nat)

  ghost predicate PricedUpTo(run: Running, ranges: seq<Range>, i: nat, next: nat,
                             ids: seq<Id>, weekly: seq<seq<nat>>, rates: seq<nat>, horizonEnd: nat)
    requires |ids| == |weekly| == |rates| && Table(weekly, horizonEnd)
    requires i <= |ranges| && next <= horizonEnd
  {
    && PeriodsOf(run.periods, ranges[..i], ids, weekly, rates, horizonEnd)
    && TotalsAt(weekly, rates, next, run.totalCost, run.peakHeadcount, run.staffedFteWeeks)
    && run.staffedFteWeeks == StaffedFteWeeks(run.periods)
  }

  method PriceNext(run: Running, ranges: seq<Range>, i: nat, ids: seq<Id>, weekly: seq<seq<nat>>, rates: seq<nat>, ghost horizonEnd: nat)
    returns (next: Running)
    requires |ids| == |weekly| == |rates| && Table(weekly, horizonEnd) && i < |ranges|
    requires ranges[i].startWeek < ranges[i].endWeek <= horizonEnd && Uniform(weekly, ranges[i].startWeek, ranges[i].endWeek)
    requires PricedUpTo(run, ranges, i, ranges[i].startWeek, ids, weekly, rates, horizonEnd)
    ensures PricedUpTo(next, ranges, i + 1, ranges[i].endWeek, ids, weekly, rates, horizonEnd)
  {
    hide TotalsAt, RangeResources, StaffedFteWeeks, WeekValue;
    var range := ranges[i];
    var resources, cost, headcount := PriceRange(ids, weekly, rates, range);
    TotalsStep(weekly, rates, range.startWeek, range.endWeek, run.totalCost, run.peakHeadcount, run.staffedFteWeeks);
    var period := Period(|run.periods|, range.startWeek, range.endWeek, resources);
    PeriodsAppend(run.periods, ranges, i, ids, weekly, rates, horizonEnd, period);
    next := Running(
      run.periods + [period],
      run.totalCost + cost,
      Max(run.peakHeadcount, headcount),
      run.staffedFteWeeks + headcount * (range.endWeek - range.startWeek));
  }

  method PricePeriods(ranges: seq<Range>, ids: seq<Id>, weekly: seq<seq<nat>>, rates: seq<nat>,
                      ghost roles: seq<ResourceType>, ghost periodWeeks: nat, ghost horizonEnd: nat)
    returns (run: Running)
    requires |ids| == |weekly| == |rates| == |roles| && Table(weekly, horizonEnd) && periodWeeks > 0
    requires Chain(ranges, 0, horizonEnd) && GoodRanges(ranges, roles, weekly, periodWeeks, horizonEnd)
    ensures PricedUpTo(run, ranges, |ranges|, horizonEnd, ids, weekly, rates, horizonEnd)
  {
    run := Running([], 0, 0, 0);
    ghost var next: nat := 0;
    for i := 0 to |ranges|
      invariant next <= horizonEnd && Chain(ranges[..i], 0, next)
      invariant PricedUpTo(run, ranges, i, next, ids, weekly, rates, horizonEnd)
    {
      ChainPrefix(ranges, i, horizonEnd);
      ChainEndUnique(ranges[..i], 0, next, ranges[i].startWeek);
      assert GoodRange(ranges[i], roles, weekly, periodWeeks, horizonEnd);
      run := PriceNext(run, ranges, i, ids, weekly, rates, horizonEnd);
      assert ranges[..i + 1][..i] == ranges[..i];
      next := ranges[i].endWeek;
    }
    assert ranges[..|ranges|] == ranges;
    ChainEndUnique(ranges, 0, next, horizonEnd);
  }

  lemma {:induction false} ChainPrefix(ranges: seq<Range>, i: nat, stop: nat)
    requires Chain(ranges, 0, stop) && i < |ranges|
    ensures Chain(ranges[..i], 0, ranges[i].startWeek)
    decreases |ranges|
  {
    var last := |ranges| - 1;
    if i >= last {
    } else {
      ChainPrefix(ranges[..last], i, ranges[last].startWeek);
      assert ranges[..last][..i] == ranges[..i];
    }
  }

  lemma ChainEndUnique(ranges: seq<Range>, start: nat, a: nat, b: nat)
    requires Chain(ranges, start, a) && Chain(ranges, start, b)
    ensures a == b
  {
  }

  // ── Draft locks in the envelope ────────────────────────────────────────────

  function LockEnd(locks: seq<CapacityEdit>): nat {
    if locks == [] then 0 else Max(LockEnd(locks[..|locks| - 1]), locks[|locks| - 1].endWeek)
  }

  function OutputWeeks(totalWeeks: nat, locks: seq<CapacityEdit>): nat {
    Max(totalWeeks, LockEnd(locks))
  }

  predicate LockTouches(lock: CapacityEdit, roleId: Id, period: nat, periodWeeks: nat, outputWeeks: nat) {
    && lock.roleId == roleId
    && lock.startWeek < Min((period + 1) * periodWeeks, outputWeeks)
    && lock.endWeek > period * periodWeeks
  }

  /** A coarse period's envelope, raised to every lock of the role that touches the period. */
  function LockedAt(base: nat, locks: seq<CapacityEdit>, roleId: Id, period: nat, periodWeeks: nat, outputWeeks: nat): nat
    requires periodWeeks > 0
  {
    if locks == [] then base
    else
      var last := locks[|locks| - 1];
      var before := LockedAt(base, locks[..|locks| - 1], roleId, period, periodWeeks, outputWeeks);
      if period < PeriodCount(outputWeeks, periodWeeks) && LockTouches(last, roleId, period, periodWeeks, outputWeeks)
      then Max(before, last.headcount) else before
  }

  function RowOf(capacity: map<Id, seq<nat>>, id: Id): seq<nat> {
    if id in capacity then capacity[id] else []
  }

  method RaiseToLock(row: seq<nat>, lock: CapacityEdit, periodWeeks: nat, outputWeeks: nat) returns (raised: seq<nat>)
    requires periodWeeks > 0
    ensures forall p: nat ::
              EnvelopeAt(raised, p) ==
              if p < PeriodCount(outputWeeks, periodWeeks) && LockTouches(lock, lock.roleId, p, periodWeeks, outputWeeks)
              then Max(EnvelopeAt(row, p), lock.headcount) else EnvelopeAt(row, p)
  {
    raised := row;
    var periods := PeriodCount(outputWeeks, periodWeeks);
    while |raised| < periods
      invariant |row| <= |raised|
      invariant forall p: nat :: EnvelopeAt(raised, p) == EnvelopeAt(row, p)
    {
      raised := raised + [0];
    }
    ghost var padded := raised;
    for period := 0 to periods
      invariant |raised| == |padded|
      invariant forall p: nat ::
                  EnvelopeAt(raised, p) ==
                  if p < period && LockTouches(lock, lock.roleId, p, periodWeeks, outputWeeks)
                  then Max(EnvelopeAt(row, p), lock.headcount) else EnvelopeAt(row, p)
    {
      if LockTouches(lock, lock.roleId, period, periodWeeks, outputWeeks) {
        assert raised[period] == EnvelopeAt(row, period);
        raised := raised[period := Max(raised[period], lock.headcount)];
      }
    }
  }

  method ApplyLocks(capacity: map<Id, seq<nat>>, locks: seq<CapacityEdit>, periodWeeks: nat, outputWeeks: nat)
    returns (locked: map<Id, seq<nat>>)
    requires periodWeeks > 0
    ensures forall id, p: nat ::
              EnvelopeAt(RowOf(locked, id), p) ==
              LockedAt(EnvelopeAt(RowOf(capacity, id), p), locks, id, p, periodWeeks, outputWeeks)
  {
    locked := capacity;
    for i := 0 to |locks|
      invariant forall id, p: nat ::
                  EnvelopeAt(RowOf(locked, id), p) ==
                  LockedAt(EnvelopeAt(RowOf(capacity, id), p), locks[..i], id, p, periodWeeks, outputWeeks)
    {
      var lock := locks[i];
      var raised := RaiseToLock(RowOf(locked, lock.roleId), lock, periodWeeks, outputWeeks);
      ghost var before := locked;
      locked := locked[lock.roleId := raised];
      assert locks[..i + 1][..i] == locks[..i];
      forall id, p: nat
        ensures EnvelopeAt(RowOf(locked, id), p)
             == LockedAt(EnvelopeAt(RowOf(capacity, id), p), locks[..i + 1], id, p, periodWeeks, outputWeeks)
      {
        assert EnvelopeAt(RowOf(before, id), p)
            == LockedAt(EnvelopeAt(RowOf(capacity, id), p), locks[..i], id, p, periodWeeks, outputWeeks);
      }
    }
    assert locks[..|locks|] == locks;
  }

  /** The envelope's own roles first, then the roles only locks mention. */
  function PlannedIds(order: seq<Id>, locks: seq<CapacityEdit>): (r: seq<Id>) {
    if locks == [] then order
    else
      var before := PlannedIds(order, locks[..|locks| - 1]);
      var id := locks[|locks| - 1].roleId;
      if id in before then before else before + [id]
  }

  function PlannedRoles(resourceTypes: seq<ResourceType>, planned: seq<Id>): (r: seq<ResourceType>)
    requires forall id :: id in planned ==> FindResourceType(resourceTypes, id).Some?
    ensures |r| == |planned|
  {
    seq(|planned|, k requires 0 <= k < |planned| => FindResourceType(resourceTypes, planned[k]).value)
  }

  function Rates(dayRates: map<Id, nat>, planned: seq<Id>): (r: seq<nat>)
    ensures |r| == |planned|
  {
    seq(|planned|, k requires 0 <= k < |planned| => if planned[k] in dayRates then dayRates[planned[k]] else 0)
  }

  /** What is published for a role in a week: the locked envelope of the week's coarse period. */
  function PublishedInWeek(rt: ResourceType, row: seq<nat>, locks: seq<CapacityEdit>, roleId: Id,
                           periodWeeks: nat, outputWeeks: nat, week: nat): nat
    requires periodWeeks > 0
  {
    Published(rt, LockedAt(EnvelopeInWeek(row, periodWeeks, week), locks, roleId, week / periodWeeks, periodWeeks, outputWeeks), week)
  }

  ghost predicate IsPublishedTable(weekly: seq<seq<nat>>, roles: seq<ResourceType>, planned: seq<Id>, capacity: map<Id, seq<nat>>,
                                   locks: seq<CapacityEdit>, periodWeeks: nat, outputWeeks: nat, horizonEnd: nat)
    requires periodWeeks > 0 && |roles| == |planned|
  {
    && |weekly| == |planned|
    && Table(weekly, horizonEnd)
    && forall r, w :: 0 <= r < |weekly| && 0 <= w < horizonEnd ==>
         weekly[r][w] == PublishedInWeek(roles[r], RowOf(capacity, planned[r]), locks, planned[r], periodWeeks, outputWeeks, w)
  }

  method PublishTable(roles: seq<ResourceType>, planned: seq<Id>, capacity: map<Id, seq<nat>>, locks: seq<CapacityEdit>,
                      periodWeeks: nat, outputWeeks: nat, horizonEnd: nat)
    returns (weekly: seq<seq<nat>>)
    requires periodWeeks > 0 && |roles| == |planned|
    ensures IsPublishedTable(weekly, roles, planned, capacity, locks, periodWeeks, outputWeeks, horizonEnd)
  {
    var locked := ApplyLocks(capacity, locks, periodWeeks, outputWeeks);
    weekly := [];
    for r := 0 to |roles|
      invariant |weekly| == r
      invariant forall k :: 0 <= k < r ==>
                  IsWeekly(weekly[k], roles[k], RowOf(locked, planned[k]), periodWeeks, horizonEnd)
    {
      var values := WeeklyValues(roles[r], RowOf(locked, planned[r]), periodWeeks, horizonEnd);
      weekly := weekly + [values];
    }
    forall r, w | 0 <= r < |weekly| && 0 <= w < horizonEnd
      ensures weekly[r][w] == PublishedInWeek(roles[r], RowOf(capacity, planned[r]), locks, planned[r], periodWeeks, outputWeeks, w)
    {
      assert IsWeekly(weekly[r], roles[r], RowOf(locked, planned[r]), periodWeeks, horizonEnd);
      var p := w / periodWeeks;
      assert EnvelopeAt(RowOf(locked, planned[r]), p)
          == LockedAt(EnvelopeAt(RowOf(capacity, planned[r]), p), locks, planned[r], p, periodWeeks, outputWeeks);
    }
  }

  /** Everything published: the ranges, the periods over them, and totals equal to the weekly sums. */
  method BuildEnvelopeOutput(resourceTypes: seq<ResourceType>, totalWeeks: nat, periodWeeks: nat, capacity: map<Id, seq<nat>>,
                             order: seq<Id>, locks: seq<CapacityEdit>, dayRates: map<Id, nat>)
    returns (run: Running, ranges: seq<Range>, horizonEnd: nat, weekly: seq<seq<nat>>)
    requires periodWeeks > 0
    requires forall id :: id in PlannedIds(order, locks) ==> FindResourceType(resourceTypes, id).Some?
    ensures var planned := PlannedIds(order, locks);
            var roles := PlannedRoles(resourceTypes, planned);
            && IsHorizon(horizonEnd, roles, OutputWeeks(totalWeeks, locks))
            && IsPublishedTable(weekly, roles, planned, capacity, locks, periodWeeks, OutputWeeks(totalWeeks, locks), horizonEnd)
            && Chain(ranges, 0, horizonEnd)
            && GoodRanges(ranges, roles, weekly, periodWeeks, horizonEnd)
            && PricedUpTo(run, ranges, |ranges|, horizonEnd, planned, weekly, Rates(dayRates, planned), horizonEnd)
  {
    var planned := PlannedIds(order, locks);
    var outputWeeks := OutputWeeks(totalWeeks, locks);
    var roles := PlannedRoles(resourceTypes, planned);
    horizonEnd := HorizonEnd(roles, outputWeeks);
    weekly := PublishTable(roles, planned, capacity, locks, periodWeeks, outputWeeks, horizonEnd);
    ranges := SplitRuns(roles, weekly, periodWeeks, horizonEnd);
    run := PricePeriods(ranges, planned, weekly, Rates(dayRates, planned), roles, periodWeeks, horizonEnd);
  }
}
