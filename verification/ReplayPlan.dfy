/** Replaying a whole plan onto the resource types it was made for. */
module ReplayPlan {
  import opened Common
  import opened Scheduler
  import opened Publication
  import opened Plan
  import opened Replay
  import Envelope
  import EnvelopeOutput

  /** One role's headcounts, in period order, where the plan mentions the role. */
  function SpansFor(periods: seq<Period>, roleId: Id): seq<Span> {
    if periods == [] then []
    else
      var last := periods[|periods| - 1];
      var resource := FindRole(last.resources, roleId);
      SpansFor(periods[..|periods| - 1], roleId)
      + if resource.Some? then [Span(last.startWeek, last.endWeek, resource.value.headcount)] else []
  }

  ghost predicate SpanOf(span: Span, periods: seq<Period>, roleId: Id, i: nat)
    requires i < |periods|
  {
    var resource := FindRole(periods[i].resources, roleId);
    resource.Some? && span == Span(periods[i].startWeek, periods[i].endWeek, resource.value.headcount)
  }

  ghost predicate FromSomePeriod(span: Span, periods: seq<Period>, roleId: Id) {
    exists i: nat :: i < |periods| && SpanOf(span, periods, roleId, i)
  }

  /** Every span stems from a period. */
  lemma {:induction false} SpansStem(periods: seq<Period>, roleId: Id)
    ensures forall span :: span in SpansFor(periods, roleId) ==> FromSomePeriod(span, periods, roleId)
  {
    if periods == [] {
    } else {
      var last := |periods| - 1;
      var before := SpansFor(periods[..last], roleId);
      SpansStem(periods[..last], roleId);
      forall span | span in SpansFor(periods, roleId)
        ensures FromSomePeriod(span, periods, roleId)
      {
        if span in before {
          var i: nat :| i < last && SpanOf(span, periods[..last], roleId, i);
          assert SpanOf(span, periods, roleId, i);
        } else {
          assert SpanOf(span, periods, roleId, last);
        }
      }
    }
  }

  /** Every mention of the role has its span. */
  lemma {:induction false} MentionsHaveSpans(periods: seq<Period>, roleId: Id)
    ensures forall i :: 0 <= i < |periods| && FindRole(periods[i].resources, roleId).Some? ==>
              Span(periods[i].startWeek, periods[i].endWeek, FindRole(periods[i].resources, roleId).value.headcount)
                in SpansFor(periods, roleId)
  {
    if periods == [] {
    } else {
      MentionsHaveSpans(periods[..|periods| - 1], roleId);
    }
  }

  /** The spans end before any period that follows theirs. */
  lemma SpansEndBefore(periods: seq<Period>, roleId: Id)
    requires periods != [] && Ordered(periods)
    ensures var last := |periods| - 1;
            forall span :: span in SpansFor(periods[..last], roleId) ==>
              span.startWeek < span.endWeek <= periods[last].startWeek
  {
    hide SpansFor, FindRole;
    var last := |periods| - 1;
    SpansStem(periods[..last], roleId);
    forall span | span in SpansFor(periods[..last], roleId)
      ensures span.startWeek < span.endWeek <= periods[last].startWeek
    {
      var i: nat :| i < last && SpanOf(span, periods[..last], roleId, i);
      assert periods[..last][i] == periods[i];
    }
  }

  lemma {:induction false} SpansAreOrdered(periods: seq<Period>, roleId: Id)
    requires Ordered(periods)
    ensures OrderedSpans(SpansFor(periods, roleId))
  {
    hide FindRole;
    if periods == [] {
    } else {
      SpansAreOrdered(periods[..|periods| - 1], roleId);
      SpansEndBefore(periods, roleId);
    }
  }

  /** The spans of an ordered plan are ordered, stem from its periods and leave no mention out. */
  lemma SpansForOrdered(periods: seq<Period>, roleId: Id)
    requires Ordered(periods)
    ensures OrderedSpans(SpansFor(periods, roleId))
    ensures forall span :: span in SpansFor(periods, roleId) ==> FromSomePeriod(span, periods, roleId)
    ensures forall i :: 0 <= i < |periods| && FindRole(periods[i].resources, roleId).Some? ==>
              Span(periods[i].startWeek, periods[i].endWeek, FindRole(periods[i].resources, roleId).value.headcount)
                in SpansFor(periods, roleId)
  {
    SpansAreOrdered(periods, roleId);
    SpansStem(periods, roleId);
    MentionsHaveSpans(periods, roleId);
  }

  /** In an ordered plan the role's spans and the plan itself name the same headcount every week. */
  lemma SpansMatchPlan(periods: seq<Period>, roleId: Id, week: int)
    requires Ordered(periods)
    ensures SpanHeadcount(SpansFor(periods, roleId), week) == HeadcountAt(periods, roleId, week)
  {
    SpansForOrdered(periods, roleId);
    var spans := SpansFor(periods, roleId);
    FindPeriodIn(periods, week);
    var found := FindPeriod(periods, week);
    if found.Some? && FindRole(found.value.resources, roleId).Some? {
      var i :| 0 <= i < |periods| && periods[i] == found.value;
      var span := Span(periods[i].startWeek, periods[i].endWeek, FindRole(periods[i].resources, roleId).value.headcount);
      var k :| 0 <= k < |spans| && spans[k] == span;
      SpanHeadcountAt(spans, k, week);
    } else {
      forall k | 0 <= k < |spans|
        ensures !(spans[k].startWeek <= week < spans[k].endWeek)
      {
        assert spans[k] in spans;
        var i: nat :| i < |periods| && SpanOf(spans[k], periods, roleId, i);
        if Spans(periods[i], week) {
          FindPeriodAt(periods, i, week);
        }
      }
      SpanHeadcountNone(spans, week);
    }
  }

  ghost predicate IsReplayedType(replayed: ResourceType, rt: ResourceType, periods: seq<Period>) {
    var spans := SpansFor(periods, rt.id);
    if spans == [] then replayed == rt else IsReplay(replayed, rt, spans)
  }

  ghost predicate IsReplayedPlan(replayed: seq<ResourceType>, base: seq<ResourceType>, periods: seq<Period>) {
    |replayed| == |base| && forall r :: 0 <= r < |base| ==> IsReplayedType(replayed[r], base[r], periods)
  }

  /** The resource types rebuilt from a plan. */
  function Materialized(base: seq<ResourceType>, periods: seq<Period>): (r: seq<ResourceType>)
    ensures |r| == |base|
  {
    seq(|base|, k requires 0 <= k < |base| => Replayed(base[k], SpansFor(periods, base[k].id)))
  }

  method MaterializeEnvelopeToResourceTypes(base: seq<ResourceType>, periods: seq<Period>) returns (replayed: seq<ResourceType>)
    ensures replayed == Materialized(base, periods)
  {
    replayed := [];
    for r := 0 to |base|
      invariant |replayed| == r
      invariant forall k :: 0 <= k < r ==> replayed[k] == Replayed(base[k], SpansFor(periods, base[k].id))
    {
      var role := MaterializeRole(base[r], SpansFor(periods, base[r].id));
      replayed := replayed + [role];
    }
  }

  lemma MaterializedIsReplayed(base: seq<ResourceType>, periods: seq<Period>)
    requires Ordered(periods)
    ensures IsReplayedPlan(Materialized(base, periods), base, periods)
  {
    forall r | 0 <= r < |base|
      ensures IsReplayedType(Replayed(base[r], SpansFor(periods, base[r].id)), base[r], periods)
    {
      var spans := SpansFor(periods, base[r].id);
      SpansForOrdered(periods, base[r].id);
      if spans != [] {
        ReplayedIsReplay(base[r], spans);
      }
    }
  }

  /** The weekly supply of a replayed role: what its headcount publishes, or its own people where the plan is silent. */
  lemma ReplayedSupply(replayed: ResourceType, rt: ResourceType, periods: seq<Period>, week: int)
    requires Ordered(periods) && IsReplayedType(replayed, rt, periods)
    ensures NamedCapacity(replayed.namedResources, week)
         == var headcount := HeadcountAt(periods, rt.id, week);
            if headcount.Some? then Published(rt, headcount.value, week) else NamedCapacity(rt.namedResources, week)
  {
    SpansMatchPlan(periods, rt.id, week);
    if SpansFor(periods, rt.id) != [] {
      ReplaySupplies(replayed, rt, SpansFor(periods, rt.id), week);
    }
  }

  lemma {:induction false} ChainOrder(ranges: seq<EnvelopeOutput.Range>, start: nat, stop: nat)
    requires EnvelopeOutput.Chain(ranges, start, stop)
    ensures start <= stop
    ensures forall i :: 0 <= i < |ranges| ==> start <= ranges[i].startWeek < ranges[i].endWeek <= stop
    ensures forall i, j :: 0 <= i < j < |ranges| ==> ranges[i].endWeek <= ranges[j].startWeek
  {
    if ranges == [] {
    } else {
      ChainOrder(ranges[..|ranges| - 1], start, ranges[|ranges| - 1].startWeek);
    }
  }

  /** No week of a chain is left out. */
  lemma {:induction false} ChainCovers(ranges: seq<EnvelopeOutput.Range>, start: nat, stop: nat, week: nat) returns (i: nat)
    requires EnvelopeOutput.Chain(ranges, start, stop) && start <= week < stop
    ensures i < |ranges| && ranges[i].startWeek <= week < ranges[i].endWeek
  {
    i := |ranges| - 1;
    if week < ranges[i].startWeek {
      i := ChainCovers(ranges[..i], start, ranges[i].startWeek, week);
    }
  }

  /** The published periods are ordered, cover [0, horizon), and carry the weekly table's values. */
  lemma PublishedPeriods(periods: seq<Period>, ranges: seq<EnvelopeOutput.Range>, roles: seq<ResourceType>, planned: seq<Id>,
                         weekly: seq<seq<nat>>, rates: seq<nat>, periodWeeks: nat, horizonEnd: nat)
    requires periodWeeks > 0 && |planned| == |weekly| == |rates| == |roles| && NoDuplicates(planned)
    requires EnvelopeOutput.Table(weekly, horizonEnd)
    requires EnvelopeOutput.Chain(ranges, 0, horizonEnd)
    requires EnvelopeOutput.GoodRanges(ranges, roles, weekly, periodWeeks, horizonEnd)
    requires EnvelopeOutput.PeriodsOf(periods, ranges, planned, weekly, rates, horizonEnd)
    ensures Ordered(periods)
    ensures forall r, week :: 0 <= r < |planned| && 0 <= week < horizonEnd ==>
              HeadcountAt(periods, planned[r], week) == Some(weekly[r][week])
  {
    ChainOrder(ranges, 0, horizonEnd);
    forall i, j | 0 <= i < j < |periods|
      ensures periods[i].endWeek <= periods[j].startWeek
    {
      assert ranges[i].endWeek <= ranges[j].startWeek;
    }
    forall r, week | 0 <= r < |planned| && 0 <= week < horizonEnd
      ensures HeadcountAt(periods, planned[r], week) == Some(weekly[r][week])
    {
      var i := ChainCovers(ranges, 0, horizonEnd, week);
      assert EnvelopeOutput.GoodRange(ranges[i], roles, weekly, periodWeeks, horizonEnd);
      FindPeriodAt(periods, i, week);
      FindDistinctRole(periods[i].resources, r);
    }
  }

  /** A plan published from an envelope: periods over ranges over a weekly table. */
  ghost predicate IsPublication(periods: seq<Period>, roles: seq<ResourceType>, planned: seq<Id>, capacity: map<Id, seq<nat>>,
                                locks: seq<CapacityEdit>, weekly: seq<seq<nat>>, ranges: seq<EnvelopeOutput.Range>,
                                rates: seq<nat>, periodWeeks: nat, outputWeeks: nat, horizonEnd: nat)
    requires periodWeeks > 0 && |roles| == |planned|
  {
    && NoDuplicates(planned) && |rates| == |planned|
    && (forall k :: 0 <= k < |roles| ==> roles[k].id == planned[k])
    && EnvelopeOutput.IsPublishedTable(weekly, roles, planned, capacity, locks, periodWeeks, outputWeeks, horizonEnd)
    && EnvelopeOutput.Chain(ranges, 0, horizonEnd)
    && EnvelopeOutput.GoodRanges(ranges, roles, weekly, periodWeeks, horizonEnd)
    && EnvelopeOutput.PeriodsOf(periods, ranges, planned, weekly, rates, horizonEnd)
  }

  lemma WeekReplays(replayed: ResourceType, rt: ResourceType, periods: seq<Period>, week: int, envelope: nat)
    requires Ordered(periods) && IsReplayedType(replayed, rt, periods)
    requires HeadcountAt(periods, rt.id, week) == Some(Published(rt, envelope, week))
    ensures HeadcountAt(periods, rt.id, week) == Some(NamedCapacity(replayed.namedResources, week))
  {
    ReplayedSupply(replayed, rt, periods, week);
    PublishedIdempotent(rt, envelope, week);
  }

  /**
   * Replay equals publication, end to end: build the people back from the published
   * periods and, in every week of the horizon, they supply the published headcount.
   */
  lemma PublishedPlanReplays(replayed: seq<ResourceType>, roles: seq<ResourceType>, planned: seq<Id>, capacity: map<Id, seq<nat>>,
                             locks: seq<CapacityEdit>, weekly: seq<seq<nat>>, ranges: seq<EnvelopeOutput.Range>, rates: seq<nat>,
                             periods: seq<Period>, periodWeeks: nat, outputWeeks: nat, horizonEnd: nat, r: nat, week: nat)
    requires periodWeeks > 0 && |roles| == |planned|
    requires IsPublication(periods, roles, planned, capacity, locks, weekly, ranges, rates, periodWeeks, outputWeeks, horizonEnd)
    requires Ordered(periods) && IsReplayedPlan(replayed, roles, periods)
    requires r < |roles| && week < horizonEnd
    ensures HeadcountAt(periods, planned[r], week) == Some(NamedCapacity(replayed[r].namedResources, week))
  {
    hide EnvelopeOutput.GoodRanges, EnvelopeOutput.Chain, EnvelopeOutput.PeriodsOf, IsReplayedType, HeadcountAt, Published;
    PublishedPeriods(periods, ranges, roles, planned, weekly, rates, periodWeeks, horizonEnd);
    var envelope := EnvelopeOutput.LockedAt(EnvelopeOutput.EnvelopeInWeek(EnvelopeOutput.RowOf(capacity, planned[r]), periodWeeks, week),
                                            locks, planned[r], week / periodWeeks, periodWeeks, outputWeeks);
    assert weekly[r][week] == Published(roles[r], envelope, week);
    WeekReplays(replayed[r], roles[r], periods, week, envelope);
  }
}
