/**
 * The joint planning loop: seed the draft, recover and grow until the target is met, publish an
 * envelope, reduce it, and reconcile what is returned with a last planner run on exactly that.
 */
module JointPlan {
  import opened Common
  import opened Scheduler
  import opened Plan
  import opened Growth
  import opened DraftCapacity
  import opened DraftSegments
  import opened Reduction
  import opened PlanBounds
  import CapConflict
  import DraftLocks
  import Envelope
  import Publication
  import EnvelopeOutput
  import Replay
  import ReplayPlan

  datatype JointConfig = JointConfig(target: nat, periodWeeks: nat, envelope: Envelope.EnvelopeConfig, dayRates: map<Id, nat>)

  // ── Demand metrics of a schedule ───────────────────────────────────────────

  /** Whole weeks of a delivery time given in hundredths of a week. */
  function WholeWeeks(delivery: nat): nat {
    (delivery + 99) / 100
  }

  function DaysIn(demand: map<Id, seq<real>>, roleId: Id, week: nat): real {
    if roleId in demand && week < |demand[roleId]| then demand[roleId][week] else 0.0
  }

  predicate HasDemand(demand: map<Id, seq<real>>, roleId: Id, totalWeeks: nat) {
    exists week: nat :: week <= totalWeeks && DaysIn(demand, roleId, week) > 0.0
  }

  /** Roles with demand within the schedule, each once, in list order. */
  function PlannedByDemand(resourceTypes: seq<ResourceType>, demand: map<Id, seq<real>>, totalWeeks: nat): (r: seq<Id>)
    ensures NoDuplicates(r)
    ensures forall id :: id in r ==> exists k :: 0 <= k < |resourceTypes| && resourceTypes[k].id == id
  {
    if resourceTypes == [] then []
    else
      var before := PlannedByDemand(resourceTypes[..|resourceTypes| - 1], demand, totalWeeks);
      var id := resourceTypes[|resourceTypes| - 1].id;
      if id !in before && HasDemand(demand, id, totalWeeks) then before + [id] else before
  }

  /** Demand of a week in hundredths of an FTE: five days are one person. */
  function WeekFte(demand: map<Id, seq<real>>, roleId: Id, week: nat): real {
    DaysIn(demand, roleId, week) * 20.0
  }

  function PeakFte(demand: map<Id, seq<real>>, roleId: Id, start: nat, stop: nat): real
    decreases stop - start
  {
    if start >= stop then 0.0
    else
      var before := PeakFte(demand, roleId, start, stop - 1);
      var fte := WeekFte(demand, roleId, stop - 1);
      if fte > before then fte else before
  }

  function TotalFte(demand: map<Id, seq<real>>, roleId: Id, start: nat, stop: nat): real
    decreases stop - start
  {
    if start >= stop then 0.0 else TotalFte(demand, roleId, start, stop - 1) + WeekFte(demand, roleId, stop - 1)
  }

  function PeriodPeaks(demand: map<Id, seq<real>>, roleId: Id, totalWeeks: nat, periodWeeks: nat): (r: seq<real>)
    requires periodWeeks > 0
    ensures |r| == Envelope.PeriodCount(totalWeeks, periodWeeks)
  {
    seq(Envelope.PeriodCount(totalWeeks, periodWeeks), p requires 0 <= p =>
      PeakFte(demand, roleId, p * periodWeeks, Max(0, Envelope.PeriodEnd(p, totalWeeks, periodWeeks))))
  }

  function PeriodAverages(demand: map<Id, seq<real>>, roleId: Id, totalWeeks: nat, periodWeeks: nat): (r: seq<real>)
    requires periodWeeks > 0
    ensures |r| == Envelope.PeriodCount(totalWeeks, periodWeeks)
  {
    seq(Envelope.PeriodCount(totalWeeks, periodWeeks), p requires 0 <= p =>
      var start, stop := p * periodWeeks, Max(0, Envelope.PeriodEnd(p, totalWeeks, periodWeeks));
      if stop > start then TotalFte(demand, roleId, start, stop) / (stop - start) as real else 0.0)
  }

  // ── Publishing an envelope for a schedule ──────────────────────────────────

  /** Ordered periods, numbered in order, each mentioning a role at most once. */
  ghost predicate GoodPlan(periods: seq<Period>) {
    Ordered(periods) && UniqueSlots(periods)
  }

  ghost predicate KnownRoles(edits: seq<CapacityEdit>, resourceTypes: seq<ResourceType>) {
    forall e :: e in edits ==> Envelope.FindResourceType(resourceTypes, e.roleId).Some?
  }

  predicate NonEmptyWindows(edits: seq<CapacityEdit>) {
    forall e :: e in edits ==> e.startWeek < e.endWeek
  }

  function Natural(row: seq<int>): (r: seq<nat>)
    ensures |r| == |row|
  {
    seq(|row|, p requires 0 <= p < |row| => Max(0, row[p]))
  }

  lemma {:induction false} PlannedIdsAre(order: seq<Id>, locks: seq<CapacityEdit>)
    requires NoDuplicates(order)
    ensures NoDuplicates(EnvelopeOutput.PlannedIds(order, locks))
    ensures forall id :: id in EnvelopeOutput.PlannedIds(order, locks) ==> id in order || exists e :: e in locks && e.roleId == id
  {
    if locks == [] {
    } else {
      PlannedIdsAre(order, locks[..|locks| - 1]);
      assert forall e :: e in locks[..|locks| - 1] ==> e in locks;
      assert locks[|locks| - 1] in locks;
    }
  }

  lemma {:induction false} ListedIsFound(resourceTypes: seq<ResourceType>, k: nat)
    requires k < |resourceTypes|
    ensures Envelope.FindResourceType(resourceTypes, resourceTypes[k].id).Some?
  {
    if k == 0 {
    } else {
      ListedIsFound(resourceTypes[1..], k - 1);
    }
  }

  lemma PublishedUnique(periods: seq<Period>, ranges: seq<EnvelopeOutput.Range>, ids: seq<Id>, weekly: seq<seq<nat>>,
                        rates: seq<nat>, horizonEnd: nat)
    requires |ids| == |weekly| == |rates| && EnvelopeOutput.Table(weekly, horizonEnd) && NoDuplicates(ids)
    requires EnvelopeOutput.PeriodsOf(periods, ranges, ids, weekly, rates, horizonEnd)
    ensures UniqueSlots(periods)
  {
    forall i, j, k | 0 <= i < |periods| && 0 <= j < k < |periods[i].resources|
      ensures periods[i].resources[j].roleId != periods[i].resources[k].roleId
    {
      assert periods[i].resources == EnvelopeOutput.RangeResources(ids, weekly, rates, ranges[i]);
    }
  }

  lemma {:induction false} DistinctPieceIds(ids: seq<Id>, active: seq<CapacityEdit>)
    requires NoDuplicates(ids)
    ensures NoDuplicates(DraftLocks.WithLockIds(ids, active))
  {
    if active == [] {
    } else {
      DistinctPieceIds(ids, active[..|active| - 1]);
      DraftLocks.AddOnceDistinct(DraftLocks.WithLockIds(ids, active[..|active| - 1]), active[|active| - 1].roleId);
    }
  }

  lemma PieceUnique(periods: seq<Period>, locks: seq<CapacityEdit>, dayRates: map<Id, nat>, startWeek: int, endWeek: int, index: nat)
    requires startWeek < endWeek
    ensures var piece := DraftLocks.PieceAt(periods, locks, dayRates, startWeek, endWeek, index);
            piece.Some? ==>
              piece.value.periodIndex == index
              && forall j, k :: 0 <= j < k < |piece.value.resources| ==>
                   piece.value.resources[j].roleId != piece.value.resources[k].roleId
  {
    var resources := DraftLocks.SourceResources(periods, startWeek);
    DraftLocks.SourceIdsAre(resources, "");
    DistinctPieceIds(DraftLocks.SourceIds(resources), DraftLocks.ActiveLocks(locks, startWeek));
  }

  lemma {:induction false} PiecesUnique(boundaries: seq<int>, periods: seq<Period>, locks: seq<CapacityEdit>, dayRates: map<Id, nat>, n: nat)
    requires DraftLocks.Increasing(boundaries) && (n == 0 || n < |boundaries|)
    ensures UniqueSlots(DraftLocks.Pieces(boundaries, periods, locks, dayRates, n))
  {
    if n == 0 {
    } else {
      PiecesUnique(boundaries, periods, locks, dayRates, n - 1);
      PieceUnique(periods, locks, dayRates, boundaries[n - 1], boundaries[n],
                  |DraftLocks.Pieces(boundaries, periods, locks, dayRates, n - 1)|);
    }
  }

  lemma SplitIsGood(periods: seq<Period>, locks: seq<CapacityEdit>, dayRates: map<Id, nat>)
    requires GoodPlan(periods) && DraftLocks.ValidLocks(locks)
    ensures GoodPlan(DraftLocks.Split(periods, locks, dayRates))
  {
    hide DraftLocks.ValidLocks, DraftLocks.Increasing, DraftLocks.SortedBoundaries, DraftLocks.Pieces, Ordered, UniqueSlots;
    DraftLocks.SplitCovers(periods, locks, dayRates);
    if locks != [] {
      DraftLocks.BoundariesIncrease(periods, locks);
      var boundaries := DraftLocks.SortedBoundaries(periods, locks);
      if |boundaries| >= 2 {
        PiecesUnique(boundaries, periods, locks, dayRates, |boundaries| - 1);
      }
    }
  }

  lemma LockedEditsValid(edits: seq<CapacityEdit>)
    requires NonEmptyWindows(edits)
    ensures DraftLocks.ValidLocks(LockedEdits(edits))
  {
    LockedEditsAre(edits);
    forall i | 0 <= i < |LockedEdits(edits)|
      ensures LockedEdits(edits)[i].locked && LockedEdits(edits)[i].startWeek < LockedEdits(edits)[i].endWeek
    {
      assert LockedEdits(edits)[i] in LockedEdits(edits);
    }
  }

  method SplitForDraft(periods: seq<Period>, draft: Option<seq<CapacityEdit>>, dayRates: map<Id, nat>) returns (split: seq<Period>)
    requires GoodPlan(periods) && (draft.Some? ==> NonEmptyWindows(draft.value))
    ensures GoodPlan(split)
    ensures split == if draft.Some? then DraftLocks.Split(periods, LockedEdits(draft.value), dayRates) else periods
  {
    split := periods;
    if draft.Some? {
      LockedEditsValid(draft.value);
      SplitIsGood(periods, LockedEdits(draft.value), dayRates);
      split := DraftLocks.SplitAndApplyDraftLocks(periods, LockedEdits(draft.value), dayRates);
    }
  }

  function LocksOf(draft: Option<seq<CapacityEdit>>): seq<CapacityEdit> {
    if draft.Some? then LockedEdits(draft.value) else []
  }

  /** The envelope derived from a schedule's demand on the resource types it was planned on. */
  ghost predicate IsScheduleEnvelope(capacity: map<Id, seq<int>>, schedule: Schedule, delivery: nat, resourceTypes: seq<ResourceType>,
                                     config: JointConfig)
    requires config.periodWeeks > 0
  {
    var totalWeeks := WholeWeeks(delivery);
    var planned := PlannedByDemand(resourceTypes, schedule.demand, totalWeeks);
    && (forall id :: id in capacity <==> id in planned)
    && (forall id :: id in planned ==>
          IsRoleEnvelope(capacity[id], schedule, totalWeeks, resourceTypes, config, id))
  }

  ghost predicate IsRoleEnvelope(row: seq<int>, schedule: Schedule, totalWeeks: nat, resourceTypes: seq<ResourceType>,
                                 config: JointConfig, id: Id)
    requires config.periodWeeks > 0
  {
    var peaks := PeriodPeaks(schedule.demand, id, totalWeeks, config.periodWeeks);
    var averages := PeriodAverages(schedule.demand, id, totalWeeks, config.periodWeeks);
    Envelope.IsEnvelope(row, Envelope.RoleInputs(resourceTypes, totalWeeks, config.periodWeeks, peaks, averages, config.envelope, id),
                        config.envelope, 1.1, totalWeeks, config.periodWeeks)
  }

  function NaturalRows(capacity: map<Id, seq<int>>): map<Id, seq<nat>> {
    map id | id in capacity :: Natural(capacity[id])
  }

  /** The envelope's published headcount of a role in a week, before any lock is applied to the week itself. */
  function PublishedHeadcount(rows: map<Id, seq<nat>>, horizon: nat, ids: seq<Id>, resourceTypes: seq<ResourceType>,
                              locks: seq<CapacityEdit>, outputWeeks: nat, periodWeeks: nat, roleId: Id, week: int): Option<nat>
    requires periodWeeks > 0
  {
    var rt := Envelope.FindResourceType(resourceTypes, roleId);
    if roleId in ids && rt.Some? && 0 <= week < horizon then
      Some(EnvelopeOutput.PublishedInWeek(rt.value, EnvelopeOutput.RowOf(rows, roleId), locks, roleId, periodWeeks, outputWeeks, week))
    else None
  }

  /** What a published plan says in every week: the lock's headcount where one governs, else what the envelope publishes. */
  ghost predicate Publishes(periods: seq<Period>, capacity: map<Id, seq<int>>, horizon: nat, schedule: Schedule, delivery: nat,
                            resourceTypes: seq<ResourceType>, config: JointConfig, locks: seq<CapacityEdit>)
    requires config.periodWeeks > 0
  {
    var totalWeeks := WholeWeeks(delivery);
    var ids := EnvelopeOutput.PlannedIds(PlannedByDemand(resourceTypes, schedule.demand, totalWeeks), locks);
    forall roleId, week ::
      HeadcountAt(periods, roleId, week)
      == if DraftLocks.GoverningLock(locks, roleId, week).Some? then Some(DraftLocks.GoverningLock(locks, roleId, week).value.headcount)
         else PublishedHeadcount(NaturalRows(capacity), horizon, ids, resourceTypes, locks,
                                 EnvelopeOutput.OutputWeeks(totalWeeks, locks), config.periodWeeks, roleId, week)
  }

  ghost predicate IsPublishedPlan(periods: seq<Period>, schedule: Schedule, delivery: nat, resourceTypes: seq<ResourceType>,
                                  config: JointConfig, locks: seq<CapacityEdit>)
    requires config.periodWeeks > 0
  {
    exists capacity, horizon: nat ::
      && IsScheduleEnvelope(capacity, schedule, delivery, resourceTypes, config)
      && Publishes(periods, capacity, horizon, schedule, delivery, resourceTypes, config, locks)
  }

  /** The published plan of a schedule: envelope, output, and the draft's locks. */
  method BuildResult(schedule: Schedule, delivery: nat, resourceTypes: seq<ResourceType>, config: JointConfig, draft: Option<seq<CapacityEdit>>)
    returns (periods: seq<Period>)
    requires config.periodWeeks > 0
    requires draft.Some? ==> NonEmptyWindows(draft.value) && KnownRoles(draft.value, resourceTypes)
    ensures GoodPlan(periods)
    ensures IsPublishedPlan(periods, schedule, delivery, resourceTypes, config, LocksOf(draft))
  {
    hide Ordered, UniqueSlots, HeadcountAt, Publishes, DraftLocks.Split, DraftLocks.GoverningLock;
    var totalWeeks := WholeWeeks(delivery);
    var planned := PlannedByDemand(resourceTypes, schedule.demand, totalWeeks);
    var capacity := ScheduleEnvelope(schedule, delivery, resourceTypes, config);
    var locks := LocksOf(draft);
    PlannedIdsAre(planned, locks);
    AllPlannedKnown(resourceTypes, planned, locks, draft);
    var run, ranges, horizonEnd, weekly :=
      EnvelopeOutput.BuildEnvelopeOutput(resourceTypes, totalWeeks, config.periodWeeks, NaturalRows(capacity), planned, locks, config.dayRates);
    RunIsGood(run, ranges, resourceTypes, EnvelopeOutput.PlannedIds(planned, locks), weekly, config, horizonEnd);
    RunSpeaks(run, ranges, resourceTypes, EnvelopeOutput.PlannedIds(planned, locks), weekly, config, horizonEnd,
              NaturalRows(capacity), locks, EnvelopeOutput.OutputWeeks(totalWeeks, locks));
    periods := SplitForDraft(run.periods, draft, config.dayRates);
    SplitPublishes(run.periods, periods, capacity, horizonEnd, schedule, delivery, resourceTypes, config, draft);
  }

  method ScheduleEnvelope(schedule: Schedule, delivery: nat, resourceTypes: seq<ResourceType>, config: JointConfig)
    returns (capacity: map<Id, seq<int>>)
    requires config.periodWeeks > 0
    ensures IsScheduleEnvelope(capacity, schedule, delivery, resourceTypes, config)
  {
    hide Envelope.IsEnvelope, Envelope.RoleInputs, PeakFte, TotalFte, PlannedByDemand;
    var totalWeeks := WholeWeeks(delivery);
    var planned := PlannedByDemand(resourceTypes, schedule.demand, totalWeeks);
    var peaks := map id | id in planned :: PeriodPeaks(schedule.demand, id, totalWeeks, config.periodWeeks);
    var averages := map id | id in planned :: PeriodAverages(schedule.demand, id, totalWeeks, config.periodWeeks);
    capacity := Envelope.DeriveCapacityEnvelope(
      resourceTypes, totalWeeks, config.periodWeeks, planned, peaks, averages, config.envelope, 1.1);
  }

  lemma AllPlannedKnown(resourceTypes: seq<ResourceType>, planned: seq<Id>, locks: seq<CapacityEdit>, draft: Option<seq<CapacityEdit>>)
    requires NoDuplicates(planned)
    requires forall id :: id in planned ==> exists k :: 0 <= k < |resourceTypes| && resourceTypes[k].id == id
    requires locks == LocksOf(draft)
    requires draft.Some? ==> KnownRoles(draft.value, resourceTypes)
    ensures forall id :: id in EnvelopeOutput.PlannedIds(planned, locks) ==> Envelope.FindResourceType(resourceTypes, id).Some?
  {
    PlannedIdsAre(planned, locks);
    if draft.Some? {
      LockedEditsAre(draft.value);
    }
    forall id | id in planned
      ensures Envelope.FindResourceType(resourceTypes, id).Some?
    {
      var k :| 0 <= k < |resourceTypes| && resourceTypes[k].id == id;
      ListedIsFound(resourceTypes, k);
    }
  }

  lemma RunIsGood(run: EnvelopeOutput.Running, ranges: seq<EnvelopeOutput.Range>, resourceTypes: seq<ResourceType>, planned: seq<Id>,
                  weekly: seq<seq<nat>>, config: JointConfig, horizonEnd: nat)
    requires config.periodWeeks > 0 && NoDuplicates(planned) && |weekly| == |planned| && EnvelopeOutput.Table(weekly, horizonEnd)
    requires forall id :: id in planned ==> Envelope.FindResourceType(resourceTypes, id).Some?
    requires EnvelopeOutput.Chain(ranges, 0, horizonEnd)
    requires EnvelopeOutput.GoodRanges(ranges, EnvelopeOutput.PlannedRoles(resourceTypes, planned), weekly, config.periodWeeks, horizonEnd)
    requires EnvelopeOutput.PricedUpTo(run, ranges, |ranges|, horizonEnd, planned, weekly,
                                       EnvelopeOutput.Rates(config.dayRates, planned), horizonEnd)
    ensures GoodPlan(run.periods)
  {
    var rates := EnvelopeOutput.Rates(config.dayRates, planned);
    var roles := EnvelopeOutput.PlannedRoles(resourceTypes, planned);
    assert ranges[..|ranges|] == ranges;
    PublishedUnique(run.periods, ranges, planned, weekly, rates, horizonEnd);
    ReplayPlan.PublishedPeriods(run.periods, ranges, roles, planned, weekly, rates, config.periodWeeks, horizonEnd);
  }

  /** The priced periods say what the table says, and nothing else. */
  lemma RunSpeaks(run: EnvelopeOutput.Running, ranges: seq<EnvelopeOutput.Range>, resourceTypes: seq<ResourceType>, ids: seq<Id>,
                  weekly: seq<seq<nat>>, config: JointConfig, horizonEnd: nat, rows: map<Id, seq<nat>>, locks: seq<CapacityEdit>,
                  outputWeeks: nat)
    requires config.periodWeeks > 0 && NoDuplicates(ids)
    requires forall id :: id in ids ==> Envelope.FindResourceType(resourceTypes, id).Some?
    requires EnvelopeOutput.IsPublishedTable(weekly, EnvelopeOutput.PlannedRoles(resourceTypes, ids), ids, rows, locks,
                                             config.periodWeeks, outputWeeks, horizonEnd)
    requires EnvelopeOutput.Chain(ranges, 0, horizonEnd)
    requires EnvelopeOutput.GoodRanges(ranges, EnvelopeOutput.PlannedRoles(resourceTypes, ids), weekly, config.periodWeeks, horizonEnd)
    requires EnvelopeOutput.PricedUpTo(run, ranges, |ranges|, horizonEnd, ids, weekly,
                                       EnvelopeOutput.Rates(config.dayRates, ids), horizonEnd)
    ensures forall roleId, week ::
              HeadcountAt(run.periods, roleId, week)
              == PublishedHeadcount(rows, horizonEnd, ids, resourceTypes, locks, outputWeeks, config.periodWeeks, roleId, week)
  {
    var rates := EnvelopeOutput.Rates(config.dayRates, ids);
    var roles := EnvelopeOutput.PlannedRoles(resourceTypes, ids);
    assert ranges[..|ranges|] == ranges;
    ReplayPlan.PublishedPeriods(run.periods, ranges, roles, ids, weekly, rates, config.periodWeeks, horizonEnd);
    hide HeadcountAt, EnvelopeOutput.GoodRanges, EnvelopeOutput.PublishedInWeek, EnvelopeOutput.TotalsAt;
    forall roleId, week
      ensures HeadcountAt(run.periods, roleId, week)
           == PublishedHeadcount(rows, horizonEnd, ids, resourceTypes, locks, outputWeeks, config.periodWeeks, roleId, week)
    {
      if roleId in ids && 0 <= week < horizonEnd {
        var r :| 0 <= r < |ids| && ids[r] == roleId;
        assert HeadcountAt(run.periods, ids[r], week) == Some(weekly[r][week]);
      } else {
        NothingElse(run.periods, ranges, ids, weekly, rates, horizonEnd, roleId, week);
      }
    }
  }

  lemma NothingElse(periods: seq<Period>, ranges: seq<EnvelopeOutput.Range>, ids: seq<Id>, weekly: seq<seq<nat>>, rates: seq<nat>,
                    horizonEnd: nat, roleId: Id, week: int)
    requires |ids| == |weekly| == |rates| && EnvelopeOutput.Table(weekly, horizonEnd)
    requires EnvelopeOutput.PeriodsOf(periods, ranges, ids, weekly, rates, horizonEnd)
    requires roleId !in ids || !(0 <= week < horizonEnd)
    ensures HeadcountAt(periods, roleId, week) == None
  {
    FindPeriodIn(periods, week);
    var period := FindPeriod(periods, week);
    if period.Some? {
      var i :| 0 <= i < |periods| && periods[i] == period.value;
      assert 0 <= ranges[i].startWeek <= week < ranges[i].endWeek <= horizonEnd;
      RoleAbsent(period.value.resources, roleId);
    }
  }

  lemma {:induction false} RoleAbsent(resources: seq<RoleHeadcount>, roleId: Id)
    requires forall k :: 0 <= k < |resources| ==> resources[k].roleId != roleId
    ensures FindRole(resources, roleId) == None
  {
    if resources == [] {
    } else {
      RoleAbsent(resources[1..], roleId);
    }
  }

  lemma SplitPublishes(run: seq<Period>, periods: seq<Period>, capacity: map<Id, seq<int>>, horizon: nat, schedule: Schedule, delivery: nat,
                       resourceTypes: seq<ResourceType>, config: JointConfig, draft: Option<seq<CapacityEdit>>)
    requires config.periodWeeks > 0 && GoodPlan(run) && (draft.Some? ==> NonEmptyWindows(draft.value))
    requires periods == if draft.Some? then DraftLocks.Split(run, LockedEdits(draft.value), config.dayRates) else run
    requires var totalWeeks := WholeWeeks(delivery); var locks := LocksOf(draft);
             var ids := EnvelopeOutput.PlannedIds(PlannedByDemand(resourceTypes, schedule.demand, totalWeeks), locks);
             forall roleId, week ::
               HeadcountAt(run, roleId, week)
               == PublishedHeadcount(NaturalRows(capacity), horizon, ids, resourceTypes, locks,
                                     EnvelopeOutput.OutputWeeks(totalWeeks, locks), config.periodWeeks, roleId, week)
    ensures Publishes(periods, capacity, horizon, schedule, delivery, resourceTypes, config, LocksOf(draft))
  {
    hide HeadcountAt, DraftLocks.Split, PublishedHeadcount;
    if draft.Some? {
      LockedEditsValid(draft.value);
      forall roleId, week
        ensures HeadcountAt(periods, roleId, week)
             == if DraftLocks.GoverningLock(LocksOf(draft), roleId, week).Some?
                then Some(DraftLocks.GoverningLock(LocksOf(draft), roleId, week).value.headcount)
                else HeadcountAt(run, roleId, week)
      {
        DraftLocks.SplitHeadcount(run, LocksOf(draft), config.dayRates, roleId, week);
      }
    }
  }

  /** A published plan stays between its people and its maximums, as long as its locks do. */
  lemma PublishedPlanFits(periods: seq<Period>, schedule: Schedule, delivery: nat, resourceTypes: seq<ResourceType>, config: JointConfig,
                          locks: seq<CapacityEdit>)
    requires config.periodWeeks > 0 && IsPublishedPlan(periods, schedule, delivery, resourceTypes, config, locks)
    ensures LocksWithin(locks, config.envelope.maxCap) ==> WithinMaximums(periods, resourceTypes, config.envelope.maxCap)
    ensures LocksStaff(locks, resourceTypes) ==> StaffsNamed(periods, resourceTypes)
  {
    hide HeadcountAt, PublishedHeadcount, AtLeastNamed, AtMostMaximum, DraftLocks.GoverningLock, IsScheduleEnvelope, NaturalRows;
    var capacity, horizon: nat :|
      && IsScheduleEnvelope(capacity, schedule, delivery, resourceTypes, config)
      && Publishes(periods, capacity, horizon, schedule, delivery, resourceTypes, config, locks);
    forall roleId, week | HeadcountAt(periods, roleId, week).Some?
      ensures LocksWithin(locks, config.envelope.maxCap) && roleId in config.envelope.maxCap ==>
                AtMostMaximum(HeadcountAt(periods, roleId, week).value, resourceTypes, roleId, config.envelope.maxCap[roleId])
      ensures LocksStaff(locks, resourceTypes) && week >= 0 ==>
                AtLeastNamed(HeadcountAt(periods, roleId, week).value, resourceTypes, roleId, week)
    {
      GoverningIs(locks, roleId, week);
      if DraftLocks.GoverningLock(locks, roleId, week).None? {
        PublishedWeekFits(capacity, horizon, schedule, delivery, resourceTypes, config, locks, roleId, week);
      } else {
        LockFitsItself(DraftLocks.GoverningLock(locks, roleId, week).value, locks, resourceTypes, config.envelope.maxCap, week);
      }
    }
  }

  lemma LockFitsItself(lock: CapacityEdit, locks: seq<CapacityEdit>, resourceTypes: seq<ResourceType>, maxCap: map<Id, nat>, week: int)
    requires lock in locks && DraftLocks.IsActive(lock, week)
    ensures LocksWithin(locks, maxCap) && lock.roleId in maxCap ==>
              AtMostMaximum(lock.headcount, resourceTypes, lock.roleId, maxCap[lock.roleId])
    ensures LocksStaff(locks, resourceTypes) && week >= 0 ==> AtLeastNamed(lock.headcount, resourceTypes, lock.roleId, week)
  {
  }

  lemma PublishedWeekFits(capacity: map<Id, seq<int>>, horizon: nat, schedule: Schedule, delivery: nat, resourceTypes: seq<ResourceType>,
                          config: JointConfig, locks: seq<CapacityEdit>, roleId: Id, week: int)
    requires config.periodWeeks > 0 && IsScheduleEnvelope(capacity, schedule, delivery, resourceTypes, config)
    requires var totalWeeks := WholeWeeks(delivery);
             var ids := EnvelopeOutput.PlannedIds(PlannedByDemand(resourceTypes, schedule.demand, totalWeeks), locks);
             PublishedHeadcount(NaturalRows(capacity), horizon, ids, resourceTypes, locks,
                                EnvelopeOutput.OutputWeeks(totalWeeks, locks), config.periodWeeks, roleId, week).Some?
    ensures var totalWeeks := WholeWeeks(delivery);
            var ids := EnvelopeOutput.PlannedIds(PlannedByDemand(resourceTypes, schedule.demand, totalWeeks), locks);
            var headcount := PublishedHeadcount(NaturalRows(capacity), horizon, ids, resourceTypes, locks,
                                                EnvelopeOutput.OutputWeeks(totalWeeks, locks), config.periodWeeks, roleId, week).value;
            && AtLeastNamed(headcount, resourceTypes, roleId, week)
            && (LocksWithin(locks, config.envelope.maxCap) && roleId in config.envelope.maxCap ==>
                  AtMostMaximum(headcount, resourceTypes, roleId, config.envelope.maxCap[roleId]))
  {
    hide AtMostMaximum, Publication.Published, PlannedByDemand, EnvelopeOutput.PlannedIds, EnvelopeOutput.LockedAt;
    var rt := Envelope.FindResourceType(resourceTypes, roleId).value;
    var row := EnvelopeOutput.RowOf(NaturalRows(capacity), roleId);
    var base := EnvelopeOutput.EnvelopeInWeek(row, config.periodWeeks, week);
    var outputWeeks := EnvelopeOutput.OutputWeeks(WholeWeeks(delivery), locks);
    var locked := EnvelopeOutput.LockedAt(base, locks, roleId, week / config.periodWeeks, config.periodWeeks, outputWeeks);
    if LocksWithin(locks, config.envelope.maxCap) && roleId in config.envelope.maxCap {
      RowFits(capacity, schedule, delivery, resourceTypes, config, roleId, week / config.periodWeeks);
      LockedIsWithin(base, locks, resourceTypes, roleId, week / config.periodWeeks, config.periodWeeks, outputWeeks, config.envelope.maxCap);
      PublishedIsWithin(rt, locked, resourceTypes, roleId, week, config.envelope.maxCap[roleId]);
    }
  }

  lemma RowFits(capacity: map<Id, seq<int>>, schedule: Schedule, delivery: nat, resourceTypes: seq<ResourceType>, config: JointConfig,
                roleId: Id, p: nat)
    requires config.periodWeeks > 0 && IsScheduleEnvelope(capacity, schedule, delivery, resourceTypes, config)
    requires roleId in config.envelope.maxCap
    ensures AtMostMaximum(EnvelopeOutput.EnvelopeAt(EnvelopeOutput.RowOf(NaturalRows(capacity), roleId), p),
                          resourceTypes, roleId, config.envelope.maxCap[roleId])
  {
    hide Envelope.IsEnvelope;
    if roleId in capacity && p < |capacity[roleId]| {
      var totalWeeks := WholeWeeks(delivery);
      assert IsRoleEnvelope(capacity[roleId], schedule, totalWeeks, resourceTypes, config, roleId);
      EnvelopeIsWithin(capacity[roleId], resourceTypes, roleId, PeriodPeaks(schedule.demand, roleId, totalWeeks, config.periodWeeks),
                       PeriodAverages(schedule.demand, roleId, totalWeeks, config.periodWeeks), config.envelope, 1.1, totalWeeks,
                       config.periodWeeks, p);
    }
  }

  // ── The planner on a plan ──────────────────────────────────────────────────

  function DeliveryOf(attempt: Attempt): Option<nat> {
    if attempt.Planned? then attempt.schedule.delivery else None
  }

  /** The planner seen from the reduction: run on the people a plan stands for. */
  function PlanRunner(planner: Growth.Planner, base: seq<ResourceType>): Reduction.Planner {
    (periods: seq<Period>) => DeliveryOf(planner(ReplayPlan.Materialized(base, periods)))
  }

  lemma {:induction false} SpansIgnoreCosts(periods: seq<Period>, dayRates: map<Id, nat>, roleId: Id)
    ensures ReplayPlan.SpansFor(Repriced(periods, dayRates), roleId) == ReplayPlan.SpansFor(periods, roleId)
  {
    if periods == [] {
    } else {
      var last := |periods| - 1;
      assert Repriced(periods, dayRates)[..last] == Repriced(periods[..last], dayRates);
      SpansIgnoreCosts(periods[..last], dayRates, roleId);
      FindIgnoresCosts(periods[last].resources, RepricedResources(periods[last].resources, dayRates, Width(periods[last])), roleId);
    }
  }

  lemma {:induction false} FindIgnoresCosts(a: seq<RoleHeadcount>, b: seq<RoleHeadcount>, roleId: Id)
    requires |a| == |b| && forall j :: 0 <= j < |a| ==> a[j].roleId == b[j].roleId && a[j].headcount == b[j].headcount
    ensures FindRole(a, roleId).Some? <==> FindRole(b, roleId).Some?
    ensures FindRole(a, roleId).Some? ==> FindRole(a, roleId).value.headcount == FindRole(b, roleId).value.headcount
  {
    if a == [] {
    } else {
      FindIgnoresCosts(a[1..], b[1..], roleId);
    }
  }

  /** Costs do not reach the planner. */
  lemma PeopleIgnoreCosts(base: seq<ResourceType>, periods: seq<Period>, dayRates: map<Id, nat>)
    ensures ReplayPlan.Materialized(base, Repriced(periods, dayRates)) == ReplayPlan.Materialized(base, periods)
  {
    forall k | 0 <= k < |base|
      ensures ReplayPlan.SpansFor(Repriced(periods, dayRates), base[k].id) == ReplayPlan.SpansFor(periods, base[k].id)
    {
      SpansIgnoreCosts(periods, dayRates, base[k].id);
    }
  }

  lemma {:induction false} HeadcountIgnoresCosts(periods: seq<Period>, dayRates: map<Id, nat>, roleId: Id, week: int)
    ensures HeadcountAt(Repriced(periods, dayRates), roleId, week) == HeadcountAt(periods, roleId, week)
  {
    if periods == [] {
    } else {
      assert Repriced(periods, dayRates)[1..] == Repriced(periods[1..], dayRates);
      HeadcountIgnoresCosts(periods[1..], dayRates, roleId, week);
      FindIgnoresCosts(periods[0].resources, RepricedResources(periods[0].resources, dayRates, Width(periods[0])), roleId);
    }
  }

  lemma SameShapeIsGood(a: seq<Period>, b: seq<Period>)
    requires SameShape(a, b) && UniqueSlots(a) && GoodPlan(b)
    ensures GoodPlan(a)
  {
  }

  // ── Reconciliation ─────────────────────────────────────────────────────────

  /** Every lock shows its headcount in every week it governs. */
  ghost predicate LocksShown(periods: seq<Period>, locks: seq<CapacityEdit>) {
    forall roleId, week :: DraftLocks.GoverningLock(locks, roleId, week).Some? ==>
      HeadcountAt(periods, roleId, week) == Some(DraftLocks.GoverningLock(locks, roleId, week).value.headcount)
  }

  /** The resource types a returned plan is validated against. */
  function Reconciled(base: seq<ResourceType>, periods: seq<Period>, edits: seq<CapacityEdit>): seq<ResourceType> {
    Restored(ReplayPlan.Materialized(base, periods), LockedEdits(edits))
  }

  /**
   * The last run: split once more at the locks, rebuild the people of exactly that plan, restore the
   * locks over them, and take whatever delivery the planner then finds.
   */
  method Reconcile(planner: Growth.Planner, base: seq<ResourceType>, first: seq<Period>, config: JointConfig, draft: Option<seq<CapacityEdit>>)
    returns (periods: seq<Period>, delivery: Option<nat>)
    requires GoodPlan(first) && (draft.Some? ==> NonEmptyWindows(draft.value))
    ensures GoodPlan(periods)
    ensures draft.Some? ==> LocksShown(periods, LockedEdits(draft.value))
    ensures delivery == DeliveryOf(planner(Reconciled(base, periods, if draft.Some? then draft.value else [])))
    ensures LocksOf(draft) == [] ==> delivery == PlanRunner(planner, base)(first)
    ensures LocksWithin(LocksOf(draft), config.envelope.maxCap) && WithinMaximums(first, base, config.envelope.maxCap) ==>
              WithinMaximums(periods, base, config.envelope.maxCap)
    ensures LocksStaff(LocksOf(draft), base) && StaffsNamed(first, base) ==> StaffsNamed(periods, base)
  {
    hide WithinMaximums, StaffsNamed, LocksWithin, LocksStaff;
    var edits := if draft.Some? then draft.value else [];
    var replayPeriods := SplitForDraft(first, draft, config.dayRates);
    var people := ReplayPlan.MaterializeEnvelopeToResourceTypes(base, replayPeriods);
    var reconciled := RestoreDraftLockedCapacity(people, edits);
    var attempt := planner(reconciled);
    periods := Repriced(replayPeriods, config.dayRates);
    delivery := DeliveryOf(attempt);
    PeopleIgnoreCosts(base, replayPeriods, config.dayRates);
    SameShapeIsGood(periods, replayPeriods);
    ReplayFits(first, replayPeriods, base, config, draft);
    if draft.Some? {
      LockedEditsValid(draft.value);
      ShowLocks(first, LockedEdits(draft.value), config.dayRates);
    }
    if LocksOf(draft) == [] {
      NothingLockedToRestore(people, edits);
    }
  }

  lemma NothingLockedToRestore(people: seq<ResourceType>, edits: seq<CapacityEdit>)
    requires LockedEdits(edits) == []
    ensures Restored(people, LockedEdits(edits)) == people
  {
  }

  /** Splitting at the locks and pricing again keeps a plan between its people and its maximums. */
  lemma ReplayFits(first: seq<Period>, replay: seq<Period>, base: seq<ResourceType>, config: JointConfig, draft: Option<seq<CapacityEdit>>)
    requires GoodPlan(first) && (draft.Some? ==> NonEmptyWindows(draft.value))
    requires replay == if draft.Some? then DraftLocks.Split(first, LockedEdits(draft.value), config.dayRates) else first
    ensures var periods := Repriced(replay, config.dayRates);
            && (LocksWithin(LocksOf(draft), config.envelope.maxCap) && WithinMaximums(first, base, config.envelope.maxCap) ==>
                  WithinMaximums(periods, base, config.envelope.maxCap))
            && (LocksStaff(LocksOf(draft), base) && StaffsNamed(first, base) ==> StaffsNamed(periods, base))
  {
    hide WithinMaximums, StaffsNamed, LocksWithin, LocksStaff, HeadcountAt;
    forall roleId, week
      ensures HeadcountAt(Repriced(replay, config.dayRates), roleId, week) == HeadcountAt(replay, roleId, week)
    {
      HeadcountIgnoresCosts(replay, config.dayRates, roleId, week);
    }
    SameHeadcountsFit(Repriced(replay, config.dayRates), replay, base, config.envelope.maxCap);
    if draft.Some? {
      LockedEditsValid(draft.value);
      SplitFits(first, LockedEdits(draft.value), config.dayRates, base, config.envelope.maxCap);
    }
  }

  lemma ShowLocks(periods: seq<Period>, locks: seq<CapacityEdit>, dayRates: map<Id, nat>)
    requires GoodPlan(periods) && DraftLocks.ValidLocks(locks)
    ensures LocksShown(Repriced(DraftLocks.Split(periods, locks, dayRates), dayRates), locks)
  {
    forall roleId, week | DraftLocks.GoverningLock(locks, roleId, week).Some?
      ensures HeadcountAt(Repriced(DraftLocks.Split(periods, locks, dayRates), dayRates), roleId, week)
           == Some(DraftLocks.GoverningLock(locks, roleId, week).value.headcount)
    {
      DraftLocks.SplitHeadcount(periods, locks, dayRates, roleId, week);
      HeadcountIgnoresCosts(DraftLocks.Split(periods, locks, dayRates), dayRates, roleId, week);
    }
  }

  // ── The whole computation ──────────────────────────────────────────────────

  /** The planner's iteration bound, derived from the space of single quanta. */
  function QuantumSlots(resourceTypes: seq<ResourceType>, maxCap: map<Id, nat>): nat {
    if resourceTypes == [] then 0
    else
      var last := resourceTypes[|resourceTypes| - 1];
      var cap := if last.id in maxCap then maxCap[last.id] else 10000;
      QuantumSlots(resourceTypes[..|resourceTypes| - 1], maxCap) + (cap + Envelope.QUANTUM - 1) / Envelope.QUANTUM
  }

  function MaxIterations(resourceTypes: seq<ResourceType>, maxCap: map<Id, nat>): nat {
    Min(Max(QuantumSlots(resourceTypes, maxCap) + 10, 32), 200)
  }

  datatype JointResult = JointResult(periods: seq<Period>, delivery: Option<nat>, targetAchieved: bool)

  /** The plan the loop has before reduction, and whether its planner run ever completes. */
  method PlanToTarget(setup: Setup, seeded: seq<ResourceType>, analyze: (Schedule, seq<ResourceType>) -> seq<Blocker>, config: JointConfig)
    returns (found: bool, best: Schedule, bestTypes: seq<ResourceType>)
    ensures found ==> setup.planner(bestTypes) == Planned(best) && best.delivery.Some? && SameRoles(bestTypes, seeded)
  {
    var maxIterations := MaxIterations(seeded, setup.maxCap);
    found, best, bestTypes := false, Schedule(None, map[]), seeded;
    var recovery := Recover(setup, seeded, setup.planner(seeded), maxIterations);
    if recovery.last.Infeasible? || recovery.last.schedule.delivery.None? {
      return;
    }
    found, best, bestTypes := true, recovery.last.schedule, recovery.resourceTypes;
    if best.delivery.value > config.target {
      var blocked := StoppedRoles(analyze(best, bestTypes));
      var state, exhausted := GrowToTarget(setup, bestTypes, best, blocked, config.target, maxIterations);
      best, bestTypes := state.best, state.bestTypes;
    }
  }

  method ReduceWithinTarget(planner: Growth.Planner, seeded: seq<ResourceType>, first: seq<Period>, delivery: nat, config: JointConfig,
                            draft: Option<seq<CapacityEdit>>)
    returns (periods: seq<Period>, validated: bool)
    requires GoodPlan(first)
    ensures GoodPlan(periods) && SameShape(periods, first)
    ensures !validated ==> periods == first
    ensures validated ==> InTime(PlanRunner(planner, seeded)(periods), config.target)
    ensures WithinMaximums(first, seeded, config.envelope.maxCap) ==> WithinMaximums(periods, seeded, config.envelope.maxCap)
    ensures StaffsNamed(first, seeded) ==> StaffsNamed(periods, seeded)
  {
    hide WithinMaximums, StaffsNamed;
    periods, validated := first, false;
    if delivery > config.target {
      return;
    }
    var context := Context(PlanRunner(planner, seeded), config.target, seeded, config.envelope.minFloor,
                           if draft.Some? then draft.value else [], config.dayRates);
    ghost var trace;
    var search;
    search, trace := ReduceCapacity(context, first, delivery);
    RunFits(context, trace, first, search.periods, config.envelope.maxCap);
    periods, validated := search.periods, search.committed;
    SameShapeIsGood(periods, first);
    PeopleIgnoreCosts(seeded, periods, map[]);
  }

  /**
   * Whatever the planner does: a result that claims the target carries the planner's own delivery on
   * resource types built from exactly the returned periods, within the target, from a draft without
   * diagnostics, with every lock at its headcount, no headcount above its role's maximum (for a role
   * without demand, its people excepted), and none below the people of its week. Unless the
   * draft has locks, a reduction once validated is never lost again.
   */
  method ComputeJointPlan(base: seq<ResourceType>, planner: Growth.Planner, analyze: (Schedule, seq<ResourceType>) -> seq<Blocker>,
                          useful: map<Id, nat>, demanded: set<Id>, config: JointConfig, draft: Option<seq<CapacityEdit>>)
    returns (result: JointResult, ghost reduced: bool)
    requires config.periodWeeks > 0
    requires draft.Some? ==> NonEmptyWindows(draft.value) && KnownRoles(draft.value, base)
    ensures GoodPlan(result.periods)
    ensures var edits := if draft.Some? then draft.value else [];
            var seeded := Seeded(base, edits, config.envelope.maxCap);
            result.targetAchieved ==>
              && result.delivery == DeliveryOf(planner(Reconciled(seeded, result.periods, edits)))
              && InTime(result.delivery, config.target)
              && (draft.Some? ==> DraftIsClean(base, edits, config.envelope.maxCap, config.envelope.minFloor)
                                  && LocksShown(result.periods, LockedEdits(edits)))
    ensures result.targetAchieved ==> forall k :: 0 <= k < |base| && base[k].id in demanded ==>
              CapConflict.FitsMaximum(base[k], config.envelope.maxCap)
    ensures draft.None? || result.targetAchieved ==> WithinMaximums(result.periods, base, config.envelope.maxCap)
    ensures draft.None? || (result.targetAchieved && EditsApart(draft.value)) ==> StaffsNamed(result.periods, base)
    ensures result.targetAchieved ==> DemandedWithinMaximums(result.periods, demanded, config.envelope.maxCap)
    ensures LocksOf(draft) == [] && reduced && result.periods != [] ==> result.targetAchieved
  {
    hide WithinMaximums, StaffsNamed, LocksWithin, LocksStaff, IsPublishedPlan, EditsApart, DemandedWithinMaximums;
    hide DraftIsClean, Seeded, LocksShown, Reconciled, PlanRunner, DeliveryOf, GoodPlan, CapConflict.FitsMaximum;
    hide CapConflict.HasConflict, KnownRoles, SameRoles;
    reduced := false;
    EmptyIsGood();
    EmptyFits(base, config.envelope.maxCap);
    var edits := if draft.Some? then draft.value else [];
    var clean, seeded := SeedDraft(base, config, draft);
    var conflict := MaximumConflicts(base, seeded, config.envelope.maxCap, demanded, edits);
    if conflict {
      return JointResult([], None, false), false;
    }
    var setup := Setup(planner, useful, config.envelope.maxCap, draft);
    var found, best, bestTypes := PlanToTarget(setup, seeded, analyze, config);
    if !found {
      return JointResult([], None, false), false;
    }
    StillKnown(draft, base, seeded, bestTypes);
    var first := BuildResult(best, best.delivery.value, bestTypes, config, draft);
    FirstFits(first, best, bestTypes, seeded, base, config, draft, clean);
    var periods, validated := ReduceWithinTarget(planner, seeded, first, best.delivery.value, config, draft);
    reduced := validated;
    if periods == [] {
      return JointResult([], if clean then best.delivery else None, false), reduced;
    }
    var delivery;
    periods, delivery := Reconcile(planner, seeded, periods, config, draft);
    if !clean {
      LocklessIsClean(base, draft, config.envelope);
      delivery := None;
    }
    result := JointResult(periods, delivery, clean && InTime(delivery, config.target));
    SamePeopleFit(periods, seeded, base, config.envelope.maxCap);
    if result.targetAchieved {
      DemandedFit(periods, base, demanded, config.envelope.maxCap);
    }
  }

  /** No headcount of a role with demand exceeds its maximum at all. */
  ghost predicate DemandedWithinMaximums(periods: seq<Period>, demanded: set<Id>, maxCap: map<Id, nat>) {
    forall roleId, week :: roleId in demanded && roleId in maxCap && HeadcountAt(periods, roleId, week).Some? ==>
      HeadcountAt(periods, roleId, week).value <= maxCap[roleId]
  }

  lemma DemandedFit(periods: seq<Period>, base: seq<ResourceType>, demanded: set<Id>, maxCap: map<Id, nat>)
    requires WithinMaximums(periods, base, maxCap)
    requires forall k :: 0 <= k < |base| && base[k].id in demanded ==> CapConflict.FitsMaximum(base[k], maxCap)
    ensures DemandedWithinMaximums(periods, demanded, maxCap)
  {
    hide HeadcountAt;
    forall roleId, week | roleId in demanded && roleId in maxCap && HeadcountAt(periods, roleId, week).Some?
      ensures HeadcountAt(periods, roleId, week).value <= maxCap[roleId]
    {
      assert AtMostMaximum(HeadcountAt(periods, roleId, week).value, base, roleId, maxCap[roleId]);
      if Envelope.FindResourceType(base, roleId).Some? {
        var k := FoundAt(base, roleId);
        forall w | w >= 0
          ensures NamedCapacity(base[k].namedResources, w) <= maxCap[roleId]
        {
          assert !CapConflict.ExceedsAt(base[k].namedResources, maxCap[roleId], w);
        }
      }
    }
  }

  lemma {:induction false} FoundAt(resourceTypes: seq<ResourceType>, roleId: Id) returns (k: nat)
    requires Envelope.FindResourceType(resourceTypes, roleId).Some?
    ensures k < |resourceTypes| && resourceTypes[k].id == roleId
    ensures Envelope.FindResourceType(resourceTypes, roleId) == Some(resourceTypes[k])
  {
    if resourceTypes[0].id == roleId {
      k := 0;
    } else {
      var rest := FoundAt(resourceTypes[1..], roleId);
      k := rest + 1;
    }
  }

  lemma EmptyFits(roles: seq<ResourceType>, maxCap: map<Id, nat>)
    ensures WithinMaximums([], roles, maxCap) && StaffsNamed([], roles)
  {
  }

  /** The first plan fits its bounds, if the draft's locks do. */
  lemma FirstFits(first: seq<Period>, best: Schedule, bestTypes: seq<ResourceType>, seeded: seq<ResourceType>, base: seq<ResourceType>,
                  config: JointConfig, draft: Option<seq<CapacityEdit>>, clean: bool)
    requires config.periodWeeks > 0 && best.delivery.Some? && SameRoles(bestTypes, seeded) && SameRoles(seeded, base)
    requires IsPublishedPlan(first, best, best.delivery.value, bestTypes, config, LocksOf(draft))
    requires draft.Some? ==> KnownRoles(draft.value, base)
    requires clean && draft.Some? ==> DraftIsClean(base, draft.value, config.envelope.maxCap, config.envelope.minFloor)
    ensures draft.None? || clean ==>
              LocksWithin(LocksOf(draft), config.envelope.maxCap) && WithinMaximums(first, seeded, config.envelope.maxCap)
    ensures draft.None? || (clean && EditsApart(draft.value)) ==>
              LocksStaff(LocksOf(draft), seeded) && StaffsNamed(first, seeded)
  {
    hide WithinMaximums, StaffsNamed, IsPublishedPlan, EditsApart, DraftIsClean, AtLeastNamed, LocksStaff;
    PublishedPlanFits(first, best, best.delivery.value, bestTypes, config, LocksOf(draft));
    SamePeopleFit(first, bestTypes, seeded, config.envelope.maxCap);
    if draft.None? {
      NoLocksStaff(seeded);
      NoLocksStaff(bestTypes);
    } else if clean {
      CleanLocksWithin(base, draft.value, config.envelope.maxCap, config.envelope.minFloor);
      if EditsApart(draft.value) {
        CleanLocksStaff(base, draft.value, config.envelope.maxCap, config.envelope.minFloor);
        SameLocksStaff(LocksOf(draft), seeded, base);
        SameLocksStaff(LocksOf(draft), bestTypes, seeded);
      }
    }
  }

  lemma NoLocksStaff(roles: seq<ResourceType>)
    ensures LocksStaff([], roles)
  {
  }

  lemma SameLocksStaff(locks: seq<CapacityEdit>, a: seq<ResourceType>, b: seq<ResourceType>)
    requires SameRoles(a, b)
    ensures LocksStaff(locks, a) <==> LocksStaff(locks, b)
  {
    forall roleId, week, headcount
      ensures AtLeastNamed(headcount, a, roleId, week) <==> AtLeastNamed(headcount, b, roleId, week)
    {
      SameRolesFound(a, b, roleId);
    }
  }

  /** A clean draft's locks respect their maximums. */
  lemma CleanLocksWithin(base: seq<ResourceType>, edits: seq<CapacityEdit>, maxCap: map<Id, nat>, minFloor: map<Id, nat>)
    requires DraftIsClean(base, edits, maxCap, minFloor) && KnownRoles(edits, base)
    ensures LocksWithin(LockedEdits(edits), maxCap)
  {
    hide FitsAt, RespectsFloor, DraftBoundaries;
    LockedEditsAre(edits);
    forall e | e in LockedEdits(edits) && e.roleId in maxCap
      ensures e.headcount <= maxCap[e.roleId]
    {
      var k := FoundAt(base, e.roleId);
      EditsForAre(edits, e.roleId);
      assert RoleIsClean(base[k], EditsFor(edits, base[k].id), CapOf(maxCap, base[k].id));
      assert e in EditsFor(edits, base[k].id);
    }
  }

  /** With edits apart, a clean draft's locks leave room for the people of every week. */
  lemma CleanLocksStaff(base: seq<ResourceType>, edits: seq<CapacityEdit>, maxCap: map<Id, nat>, minFloor: map<Id, nat>)
    requires DraftIsClean(base, edits, maxCap, minFloor) && KnownRoles(edits, base) && EditsApart(edits)
    ensures LocksStaff(LockedEdits(edits), base)
  {
    hide RespectsFloor, DraftBoundaries, EditAt;
    LockedEditsAre(edits);
    forall e, week | e in LockedEdits(edits) && DraftLocks.IsActive(e, week) && week >= 0
      ensures AtLeastNamed(e.headcount, base, e.roleId, week)
    {
      var k := FoundAt(base, e.roleId);
      assert RoleIsClean(base[k], EditsFor(edits, base[k].id), CapOf(maxCap, base[k].id));
      TheActiveEdit(edits, e, week);
      FitsAtEveryWeek(base[k], EditsFor(edits, base[k].id));
      assert LockFits(base[k], EditsFor(edits, base[k].id), week);
    }
  }

  /** A draft without locks raises no diagnostic. */
  lemma LocklessIsClean(base: seq<ResourceType>, draft: Option<seq<CapacityEdit>>, envelope: Envelope.EnvelopeConfig)
    ensures draft.Some? && LocksOf(draft) == [] ==> DraftIsClean(base, draft.value, envelope.maxCap, envelope.minFloor)
  {
    hide RoleIsClean;
    if draft.Some? && LocksOf(draft) == [] {
      LockedEditsAre(draft.value);
      forall k | 0 <= k < |base|
        ensures RoleIsClean(base[k], EditsFor(draft.value, base[k].id), CapOf(envelope.maxCap, base[k].id))
      {
        var own := EditsFor(draft.value, base[k].id);
        EditsForAre(draft.value, base[k].id);
        LockedEditsAre(own);
        if LockedEdits(own) != [] {
          assert LockedEdits(own)[0] in LockedEdits(own);
        }
        NothingLocked(base[k], own, CapOf(envelope.maxCap, base[k].id));
      }
    }
  }

  lemma EmptyIsGood()
    ensures GoodPlan([])
  {
  }

  /** The resource types a draft starts from, and whether it raised no diagnostic. */
  method SeedDraft(base: seq<ResourceType>, config: JointConfig, draft: Option<seq<CapacityEdit>>)
    returns (clean: bool, seeded: seq<ResourceType>)
    ensures seeded == Seeded(base, if draft.Some? then draft.value else [], config.envelope.maxCap) && SameRoles(seeded, base)
    ensures clean == (draft.Some? ==> DraftIsClean(base, draft.value, config.envelope.maxCap, config.envelope.minFloor))
  {
    hide DraftIsClean;
    if draft.None? {
      NothingSeeded(base, config.envelope.maxCap);
      return true, base;
    }
    var diagnostics := DraftDiagnostics(base, draft.value, config.envelope.maxCap, config.envelope.minFloor);
    clean := diagnostics == [];
    seeded := ApplyDraftCapacitySeeds(base, draft.value, config.envelope.maxCap);
    SeedsKeepRoles(base, draft.value, config.envelope.maxCap);
  }

  lemma SeedsKeepRoles(base: seq<ResourceType>, edits: seq<CapacityEdit>, maxCap: map<Id, nat>)
    ensures SameRoles(Seeded(base, edits, maxCap), base)
  {
  }

  method MaximumConflicts(base: seq<ResourceType>, seeded: seq<ResourceType>, maxCap: map<Id, nat>, demanded: set<Id>,
                          ghost edits: seq<CapacityEdit>)
    returns (conflict: bool)
    requires seeded == Seeded(base, edits, maxCap)
    ensures !conflict ==> forall k :: 0 <= k < |base| && base[k].id in demanded ==> CapConflict.FitsMaximum(base[k], maxCap)
  {
    hide CapConflict.HasConflict, CapConflict.FitsMaximum, SeededRole, EditsFor;
    conflict := CapConflict.FindCapConflict(seeded, maxCap, demanded);
    SeedsKeepPeople(base, edits, maxCap, demanded);
    forall k | 0 <= k < |base|
      ensures seeded[k].id == base[k].id
    {
      SeedKeepsPeople(base[k], EditsFor(edits, base[k].id), CapOf(maxCap, base[k].id));
    }
  }

  /** Seeding never touches the named people. */
  lemma SeedsKeepPeople(base: seq<ResourceType>, edits: seq<CapacityEdit>, maxCap: map<Id, nat>, demanded: set<Id>)
    ensures var seeded := Seeded(base, edits, maxCap);
            forall k :: 0 <= k < |base| && base[k].id in demanded && CapConflict.FitsMaximum(seeded[k], maxCap) ==>
              CapConflict.FitsMaximum(base[k], maxCap)
  {
    hide Adapted, EditsFor;
    forall k | 0 <= k < |base|
      ensures Seeded(base, edits, maxCap)[k].namedResources == base[k].namedResources
      ensures Seeded(base, edits, maxCap)[k].id == base[k].id
    {
      SeedKeepsPeople(base[k], EditsFor(edits, base[k].id), CapOf(maxCap, base[k].id));
    }
  }

  lemma SeedKeepsPeople(rt: ResourceType, edits: seq<CapacityEdit>, cap: Option<nat>)
    ensures SeededRole(rt, edits, cap).namedResources == rt.namedResources && SeededRole(rt, edits, cap).id == rt.id
  {
  }

  lemma NothingSeeded(base: seq<ResourceType>, maxCap: map<Id, nat>)
    ensures Seeded(base, [], maxCap) == base
  {
  }

  lemma StillKnown(draft: Option<seq<CapacityEdit>>, base: seq<ResourceType>, seeded: seq<ResourceType>, grown: seq<ResourceType>)
    requires draft.Some? ==> KnownRoles(draft.value, base)
    requires SameRoles(seeded, base) && SameRoles(grown, seeded)
    ensures draft.Some? ==> KnownRoles(draft.value, grown)
  {
    if draft.Some? {
      forall e | e in draft.value
        ensures Envelope.FindResourceType(grown, e.roleId).Some?
      {
        SameRolesFound(grown, base, e.roleId);
      }
    }
  }

  // ── What the scheduler sees in a locked week ───────────────────────────────

  /**
   * In every locked week of a plan that claims the target the scheduler has exactly the locked
   * headcount to work with, provided the draft's edits of a role do not overlap.
   */
  lemma AchievedPlanStaffsItsLocks(base: seq<ResourceType>, edits: seq<CapacityEdit>, maxCap: map<Id, nat>, minFloor: map<Id, nat>,
                                   periods: seq<Period>, lock: CapacityEdit, week: int, k: nat)
    requires EditsApart(edits) && DraftIsClean(base, edits, maxCap, minFloor)
    requires GoodPlan(periods) && LocksShown(periods, LockedEdits(edits))
    requires lock in edits && lock.locked && DraftLocks.IsActive(lock, week) && week >= 0
    requires k < |base| && base[k].id == lock.roleId
    ensures WeeklyCapacity(Reconciled(Seeded(base, edits, maxCap), periods, edits)[k], week) == lock.headcount
  {
    hide Adapted, HeadcountAt, WeeklyCapacity, DraftLocks.GoverningLock, EditsFor, LockedEdits, EditsApart, SeededRole;
    hide RoleIsClean, Publication.Published, ReplayPlan.SpansFor, UniqueSlots;
    var seeded := Seeded(base, edits, maxCap);
    var people := ReplayPlan.Materialized(seeded, periods);
    SeedKeepsPeople(base[k], EditsFor(edits, base[k].id), CapOf(maxCap, base[k].id));
    GovernsItsWeek(edits, lock, week);
    ReplayPlan.MaterializedIsReplayed(seeded, periods);
    assert ReplayPlan.IsReplayedType(people[k], seeded[k], periods);
    ReplayPlan.ReplayedSupply(people[k], seeded[k], periods, week);
    MentionedIsReplayed(people[k], seeded[k], periods, week);
    LockedWeekIsStaffed(base[k], edits, CapOf(maxCap, base[k].id), people[k], lock, week);
  }

  lemma MentionedIsReplayed(replayed: ResourceType, rt: ResourceType, periods: seq<Period>, week: int)
    requires Ordered(periods) && ReplayPlan.IsReplayedType(replayed, rt, periods) && HeadcountAt(periods, rt.id, week).Some?
    ensures replayed.roleSegments == if rt.roleSegments == Some([]) then Some([]) else None
  {
    ReplayPlan.SpansMatchPlan(periods, rt.id, week);
  }

  lemma GovernsItsWeek(edits: seq<CapacityEdit>, lock: CapacityEdit, week: int)
    requires EditsApart(edits) && lock in edits && lock.locked && DraftLocks.IsActive(lock, week)
    ensures DraftLocks.GoverningLock(LockedEdits(edits), lock.roleId, week) == Some(lock)
  {
    LockedEditsAre(edits);
    GoverningIs(LockedEdits(edits), lock.roleId, week);
  }
}
