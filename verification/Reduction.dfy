/**
 * Capacity reduction: remove single quanta from single (period, role) slots for as long as
 * the planner still meets the target, within a trial budget computed up front.
 */
module Reduction {
  import opened Common
  import opened Scheduler
  import opened Plan
  import Envelope

  /** A deterministic planner run: the delivery time it finds for a plan's headcounts, if any. */
  type Planner = seq<Period> -> Option<nat>

  /** What the reduction holds fixed. */
  datatype Context = Context(
    planner: Planner,
    target: nat,
    resourceTypes: seq<ResourceType>,
    minFloor: map<Id, nat>,
    locks: seq<CapacityEdit>,
    dayRates: map<Id, nat>)

  /** A plan without its derived costs; the planner reads nothing else. */
  function Bare(periods: seq<Period>): (r: seq<Period>)
    ensures |r| == |periods|
  {
    Repriced(periods, map[])
  }

  function RepricedResources(resources: seq<RoleHeadcount>, dayRates: map<Id, nat>, width: nat): (r: seq<RoleHeadcount>)
    ensures |r| == |resources|
    ensures forall j :: 0 <= j < |r| ==> r[j].roleId == resources[j].roleId && r[j].headcount == resources[j].headcount
  {
    seq(|resources|, j requires 0 <= j < |resources| =>
      resources[j].(cost := resources[j].headcount
                            * (if resources[j].roleId in dayRates then dayRates[resources[j].roleId] else 0) * width * 5))
  }

  /** Adopting a validated schedule keeps the headcounts and derives the costs again. */
  function Repriced(periods: seq<Period>, dayRates: map<Id, nat>): (r: seq<Period>)
    ensures |r| == |periods|
    ensures forall i :: 0 <= i < |r| ==>
              r[i] == periods[i].(resources := RepricedResources(periods[i].resources, dayRates, Width(periods[i])))
  {
    seq(|periods|, i requires 0 <= i < |periods| =>
      periods[i].(resources := RepricedResources(periods[i].resources, dayRates, Width(periods[i]))))
  }

  /** Periods are numbered consecutively and mention a role at most once. */
  ghost predicate UniqueSlots(periods: seq<Period>) {
    && (forall i :: 0 <= i < |periods| ==> periods[i].periodIndex == i)
    && (forall i, j, k :: 0 <= i < |periods| && 0 <= j < k < |periods[i].resources| ==>
          periods[i].resources[j].roleId != periods[i].resources[k].roleId)
  }

  ghost predicate Slot(periods: seq<Period>, i: int, j: int) {
    0 <= i < |periods| && 0 <= j < |periods[i].resources|
  }

  ghost function SlotHeadcount(periods: seq<Period>, i: int, j: int): nat
    requires Slot(periods, i, j)
  {
    periods[i].resources[j].headcount
  }

  /** Same windows, same roles; only headcounts and costs may differ. */
  ghost predicate SameShape(a: seq<Period>, b: seq<Period>) {
    && |a| == |b|
    && forall i :: 0 <= i < |a| ==>
         && a[i].periodIndex == b[i].periodIndex && a[i].startWeek == b[i].startWeek && a[i].endWeek == b[i].endWeek
         && |a[i].resources| == |b[i].resources|
         && forall j :: 0 <= j < |a[i].resources| ==> a[i].resources[j].roleId == b[i].resources[j].roleId
  }

  /** The candidate plan, replaced by keys as the search does it. */
  function Candidate(periods: seq<Period>, periodIndex: nat, roleId: Id, headcount: nat): (r: seq<Period>)
    ensures |r| == |periods|
  {
    seq(|periods|, i requires 0 <= i < |periods| =>
      periods[i].(resources := CandidateResources(periods[i].resources, periods[i].periodIndex == periodIndex, roleId, headcount)))
  }

  function CandidateResources(resources: seq<RoleHeadcount>, here: bool, roleId: Id, headcount: nat): (r: seq<RoleHeadcount>)
    ensures |r| == |resources|
  {
    seq(|resources|, j requires 0 <= j < |resources| =>
      if here && resources[j].roleId == roleId then resources[j].(headcount := headcount) else resources[j])
  }

  ghost predicate OnlySlotChanged(after: seq<Period>, before: seq<Period>, i: int, j: int, headcount: nat)
    requires Slot(before, i, j)
  {
    && SameShape(after, before)
    && SlotHeadcount(after, i, j) == headcount
    && forall k, m :: Slot(before, k, m) && (k != i || m != j) ==> SlotHeadcount(after, k, m) == SlotHeadcount(before, k, m)
  }

  lemma CandidateChangesOneSlot(periods: seq<Period>, i: nat, j: nat, headcount: nat)
    requires UniqueSlots(periods) && Slot(periods, i, j)
    ensures OnlySlotChanged(Candidate(periods, i, periods[i].resources[j].roleId, headcount), periods, i, j, headcount)
  {
  }

  lemma BareRepriced(periods: seq<Period>, dayRates: map<Id, nat>)
    ensures Bare(Repriced(periods, dayRates)) == Bare(periods)
  {
    var repriced := Repriced(periods, dayRates);
    forall i | 0 <= i < |periods|
      ensures Bare(repriced)[i] == Bare(periods)[i]
    {
      assert RepricedResources(repriced[i].resources, map[], Width(repriced[i]))
          == RepricedResources(periods[i].resources, map[], Width(periods[i]));
    }
  }

  // ── What may be removed ────────────────────────────────────────────────────

  /** The hard lower bound of a slot: the quantised floor and the named people's weekly peak. */
  function MinimumFor(context: Context, roleId: Id, startWeek: int, endWeek: int): nat {
    var floor := if roleId in context.minFloor then context.minFloor[roleId] else 0;
    var rt := Envelope.FindResourceType(context.resourceTypes, roleId);
    Max(Envelope.QuantizeUp(floor as real),
        if rt.Some? then Envelope.PeakNamed(rt.value.namedResources, startWeek, endWeek) else 0)
  }

  function SlotMinimum(context: Context, period: Period, roleId: Id): nat {
    MinimumFor(context, roleId, period.startWeek, period.endWeek)
  }

  predicate IsLocked(context: Context, roleId: Id, startWeek: int, endWeek: int) {
    exists k :: 0 <= k < |context.locks| &&
      var edit := context.locks[k];
      edit.locked && edit.roleId == roleId && edit.endWeek > startWeek && edit.startWeek < endWeek
  }

  /** Whole quanta between a headcount and its minimum. */
  function RemovableQuanta(headcount: nat, minimum: nat): nat {
    if headcount <= minimum then 0 else (headcount - minimum + Envelope.QUANTUM - 1) / Envelope.QUANTUM
  }

  function RemovableIn(context: Context, period: Period, resources: seq<RoleHeadcount>): nat {
    if resources == [] then 0
    else
      var last := resources[|resources| - 1];
      RemovableIn(context, period, resources[..|resources| - 1])
      + RemovableQuanta(last.headcount, SlotMinimum(context, period, last.roleId))
  }

  function RemovableSlots(context: Context, periods: seq<Period>): nat {
    if periods == [] then 0
    else
      var last := periods[|periods| - 1];
      RemovableSlots(context, periods[..|periods| - 1]) + RemovableIn(context, last, last.resources)
  }

  function SlotsIn(periods: seq<Period>): nat {
    if periods == [] then 0 else SlotsIn(periods[..|periods| - 1]) + |periods[|periods| - 1].resources|
  }

  lemma OneQuantumLess(headcount: nat, minimum: nat)
    requires headcount - Envelope.QUANTUM >= minimum
    ensures RemovableQuanta(headcount, minimum) == RemovableQuanta(headcount - Envelope.QUANTUM, minimum) + 1
  {
  }

  // ── One change, all sums ───────────────────────────────────────────────────

  ghost predicate OnlyRoleChanged(after: seq<RoleHeadcount>, before: seq<RoleHeadcount>, j: int, headcount: nat)
    requires 0 <= j < |before|
  {
    && |after| == |before|
    && (forall m :: 0 <= m < |before| ==> after[m].roleId == before[m].roleId)
    && after[j].headcount == headcount
    && (forall m :: 0 <= m < |before| && m != j ==> after[m].headcount == before[m].headcount)
  }

  lemma {:induction false} SameRow(context: Context, a: Period, b: Period, after: seq<RoleHeadcount>, before: seq<RoleHeadcount>)
    requires a.startWeek == b.startWeek && a.endWeek == b.endWeek && |after| == |before|
    requires forall m :: 0 <= m < |before| ==> after[m].roleId == before[m].roleId && after[m].headcount == before[m].headcount
    ensures PeriodHeadcount(after) == PeriodHeadcount(before)
    ensures RemovableIn(context, a, after) == RemovableIn(context, b, before)
  {
    if before == [] {
    } else {
      var last := |before| - 1;
      SameRow(context, a, b, after[..last], before[..last]);
    }
  }

  lemma {:induction false} RowChange(context: Context, a: Period, b: Period, after: seq<RoleHeadcount>, before: seq<RoleHeadcount>,
                                     j: nat, headcount: nat)
    requires a.startWeek == b.startWeek && a.endWeek == b.endWeek && j < |before|
    requires OnlyRoleChanged(after, before, j, headcount)
    ensures PeriodHeadcount(after) - PeriodHeadcount(before) == headcount - before[j].headcount
    ensures RemovableIn(context, a, after) - RemovableIn(context, b, before) == QuantaMoved(context, b, before[j], headcount)
  {
    hide RemovableQuanta, MinimumFor;
    var last := |before| - 1;
    if j == last {
      SameRow(context, a, b, after[..last], before[..last]);
    } else {
      RowChange(context, a, b, after[..last], before[..last], j, headcount);
    }
  }

  lemma {:induction false} SamePlan(context: Context, after: seq<Period>, before: seq<Period>)
    requires SameShape(after, before)
    requires forall k, m :: Slot(before, k, m) ==> SlotHeadcount(after, k, m) == SlotHeadcount(before, k, m)
    ensures StaffedFteWeeks(after) == StaffedFteWeeks(before)
    ensures RemovableSlots(context, after) == RemovableSlots(context, before)
    ensures SlotsIn(after) == SlotsIn(before)
  {
    if before == [] {
    } else {
      var last := |before| - 1;
      forall k, m | Slot(before[..last], k, m)
        ensures SlotHeadcount(after[..last], k, m) == SlotHeadcount(before[..last], k, m)
      {
        assert Slot(before, k, m) && SlotHeadcount(after, k, m) == SlotHeadcount(before, k, m);
      }
      SamePlan(context, after[..last], before[..last]);
      forall m | 0 <= m < |before[last].resources|
        ensures after[last].resources[m].headcount == before[last].resources[m].headcount
      {
        assert Slot(before, last, m) && SlotHeadcount(after, last, m) == SlotHeadcount(before, last, m);
      }
      SameRow(context, after[last], before[last], after[last].resources, before[last].resources);
    }
  }

  /** What one slot's change does to the three totals. */
  ghost predicate TotalsMove(context: Context, after: seq<Period>, before: seq<Period>, fteWeeks: int, quanta: int) {
    && StaffedFteWeeks(after) - StaffedFteWeeks(before) == fteWeeks
    && RemovableSlots(context, after) - RemovableSlots(context, before) == quanta
    && SlotsIn(after) == SlotsIn(before)
  }

  function QuantaMoved(context: Context, period: Period, resource: RoleHeadcount, headcount: nat): int {
    var minimum := SlotMinimum(context, period, resource.roleId);
    RemovableQuanta(headcount, minimum) - RemovableQuanta(resource.headcount, minimum)
  }

  lemma LastRowMoves(context: Context, after: seq<Period>, before: seq<Period>, j: nat, headcount: nat)
    requires before != [] && Slot(before, |before| - 1, j)
    requires OnlySlotChanged(after, before, |before| - 1, j, headcount)
    ensures var last := before[|before| - 1];
            TotalsMove(context, after, before, (headcount - last.resources[j].headcount) * Width(last),
                       QuantaMoved(context, last, last.resources[j], headcount))
  {
    hide RemovableQuanta, MinimumFor;
    var last := |before| - 1;
    PrefixUnchanged(after, before, last, j, headcount);
    SamePlan(context, after[..last], before[..last]);
    LastRowChanged(after, before, last, j, headcount);
    RowChange(context, after[last], before[last], after[last].resources, before[last].resources, j, headcount);
    var change := headcount - before[last].resources[j].headcount;
    assert (PeriodHeadcount(before[last].resources) + change) * Width(before[last])
        == PeriodHeadcount(before[last].resources) * Width(before[last]) + change * Width(before[last]);
  }

  lemma LastRowStays(context: Context, after: seq<Period>, before: seq<Period>, i: nat, j: nat, headcount: nat, fteWeeks: int, quanta: int)
    requires Slot(before, i, j) && i < |before| - 1 && OnlySlotChanged(after, before, i, j, headcount)
    requires TotalsMove(context, after[..|before| - 1], before[..|before| - 1], fteWeeks, quanta)
    ensures TotalsMove(context, after, before, fteWeeks, quanta)
  {
    var last := |before| - 1;
    LastRowUnchanged(after, before, i, j, headcount);
    SameRow(context, after[last], before[last], after[last].resources, before[last].resources);
  }

  /** Changing one slot moves every total by that slot's share alone. */
  lemma {:induction false} PlanChange(context: Context, after: seq<Period>, before: seq<Period>, i: nat, j: nat, headcount: nat)
    requires Slot(before, i, j) && OnlySlotChanged(after, before, i, j, headcount)
    ensures TotalsMove(context, after, before, (headcount - SlotHeadcount(before, i, j)) * Width(before[i]),
                       QuantaMoved(context, before[i], before[i].resources[j], headcount))
    decreases |before|
  {
    hide TotalsMove, QuantaMoved;
    var last := |before| - 1;
    if i == last {
      LastRowMoves(context, after, before, j, headcount);
    } else {
      PrefixChanged(after, before, i, j, headcount);
      PlanChange(context, after[..last], before[..last], i, j, headcount);
      LastRowStays(context, after, before, i, j, headcount, (headcount - SlotHeadcount(before, i, j)) * Width(before[i]),
                   QuantaMoved(context, before[i], before[i].resources[j], headcount));
    }
  }

  lemma PrefixUnchanged(after: seq<Period>, before: seq<Period>, i: nat, j: nat, headcount: nat)
    requires Slot(before, i, j) && i == |before| - 1 && OnlySlotChanged(after, before, i, j, headcount)
    ensures SameShape(after[..i], before[..i])
    ensures forall k, m :: Slot(before[..i], k, m) ==> SlotHeadcount(after[..i], k, m) == SlotHeadcount(before[..i], k, m)
  {
    forall k, m | Slot(before[..i], k, m)
      ensures SlotHeadcount(after[..i], k, m) == SlotHeadcount(before[..i], k, m)
    {
      assert Slot(before, k, m);
      assert SlotHeadcount(after, k, m) == SlotHeadcount(before, k, m);
    }
  }

  lemma LastRowChanged(after: seq<Period>, before: seq<Period>, i: nat, j: nat, headcount: nat)
    requires Slot(before, i, j) && OnlySlotChanged(after, before, i, j, headcount)
    ensures OnlyRoleChanged(after[i].resources, before[i].resources, j, headcount)
  {
    forall m | 0 <= m < |before[i].resources| && m != j
      ensures after[i].resources[m].headcount == before[i].resources[m].headcount
    {
      assert Slot(before, i, m);
      assert SlotHeadcount(after, i, m) == SlotHeadcount(before, i, m);
    }
  }

  lemma PrefixChanged(after: seq<Period>, before: seq<Period>, i: nat, j: nat, headcount: nat)
    requires Slot(before, i, j) && i < |before| - 1 && OnlySlotChanged(after, before, i, j, headcount)
    ensures var last := |before| - 1;
            OnlySlotChanged(after[..last], before[..last], i, j, headcount)
  {
    var last := |before| - 1;
    forall k, m | Slot(before[..last], k, m) && (k != i || m != j)
      ensures SlotHeadcount(after[..last], k, m) == SlotHeadcount(before[..last], k, m)
    {
      assert Slot(before, k, m);
      assert SlotHeadcount(after, k, m) == SlotHeadcount(before, k, m);
    }
  }

  lemma LastRowUnchanged(after: seq<Period>, before: seq<Period>, i: nat, j: nat, headcount: nat)
    requires Slot(before, i, j) && i < |before| - 1 && OnlySlotChanged(after, before, i, j, headcount)
    ensures var last := |before| - 1;
            forall m :: 0 <= m < |before[last].resources| ==>
              after[last].resources[m].headcount == before[last].resources[m].headcount
  {
    var last := |before| - 1;
    forall m | 0 <= m < |before[last].resources|
      ensures after[last].resources[m].headcount == before[last].resources[m].headcount
    {
      assert Slot(before, last, m);
      assert SlotHeadcount(after, last, m) == SlotHeadcount(before, last, m);
    }
  }

  // ── The search ─────────────────────────────────────────────────────────────

  /** The candidate that takes one quantum from a slot. */
  function OneLess(periods: seq<Period>, i: nat, j: nat): seq<Period>
    requires i < |periods| && j < |periods[i].resources|
  {
    Candidate(periods, i, periods[i].resources[j].roleId, Max(0, periods[i].resources[j].headcount - Envelope.QUANTUM))
  }

  predicate MeetsTarget(context: Context, periods: seq<Period>) {
    var delivery := context.planner(Bare(periods));
    delivery.Some? && delivery.value <= context.target
  }

  /** Nothing more can be taken from this slot: it is locked, at its minimum, or the target would be missed. */
  ghost predicate Stuck(context: Context, periods: seq<Period>, i: nat, j: nat)
    requires Slot(periods, i, j)
  {
    var period, resource := periods[i], periods[i].resources[j];
    || IsLocked(context, resource.roleId, period.startWeek, period.endWeek)
    || resource.headcount - Envelope.QUANTUM < SlotMinimum(context, period, resource.roleId)
    || !MeetsTarget(context, OneLess(periods, i, j))
  }

  ghost predicate LocallyMinimal(context: Context, periods: seq<Period>) {
    forall i, j :: Slot(periods, i, j) ==> Stuck(context, periods, i, j)
  }

  /** One committed removal, seen from outside. */
  ghost predicate CommitAt(context: Context, before: seq<Period>, after: seq<Period>, i: nat, j: nat)
    requires Slot(before, i, j)
  {
    var period, resource := before[i], before[i].resources[j];
    && !IsLocked(context, resource.roleId, period.startWeek, period.endWeek)
    && resource.headcount - Envelope.QUANTUM >= SlotMinimum(context, period, resource.roleId)
    && OnlySlotChanged(after, before, i, j, resource.headcount - Envelope.QUANTUM)
    && MeetsTarget(context, after)
    && StaffedFteWeeks(after) == StaffedFteWeeks(before) - Envelope.QUANTUM * Width(period)
  }

  ghost predicate IsCommit(context: Context, before: seq<Period>, after: seq<Period>) {
    exists i: nat, j: nat :: Slot(before, i, j) && CommitAt(context, before, after, i, j)
  }

  /** A run of commits from one plan to another. */
  ghost predicate IsRun(context: Context, trace: seq<seq<Period>>, first: seq<Period>, last: seq<Period>) {
    && |trace| > 0 && trace[0] == first && trace[|trace| - 1] == last
    && forall k :: 0 < k < |trace| ==> IsCommit(context, trace[k - 1], trace[k])
  }

  lemma RunAppend(context: Context, trace: seq<seq<Period>>, first: seq<Period>, last: seq<Period>, next: seq<Period>)
    requires IsRun(context, trace, first, last) && IsCommit(context, last, next)
    ensures IsRun(context, trace + [next], first, next)
  {
  }

  lemma CommitMoves(context: Context, before: seq<Period>, after: seq<Period>, i: nat, j: nat)
    requires UniqueSlots(before) && Slot(before, i, j)
    requires before[i].resources[j].headcount - Envelope.QUANTUM >= SlotMinimum(context, before[i], before[i].resources[j].roleId)
    requires after == Repriced(OneLess(before, i, j), context.dayRates)
    ensures UniqueSlots(after)
    ensures OnlySlotChanged(after, before, i, j, before[i].resources[j].headcount - Envelope.QUANTUM)
    ensures StaffedFteWeeks(after) == StaffedFteWeeks(before) - Envelope.QUANTUM * Width(before[i])
    ensures RemovableSlots(context, after) == RemovableSlots(context, before) - 1
    ensures SlotsIn(after) == SlotsIn(before)
  {
    hide StaffedFteWeeks, RemovableSlots, SlotsIn, SlotMinimum;
    var headcount := before[i].resources[j].headcount;
    CandidateChangesOneSlot(before, i, j, headcount - Envelope.QUANTUM);
    forall k, m | Slot(before, k, m) && (k != i || m != j)
      ensures SlotHeadcount(after, k, m) == SlotHeadcount(before, k, m)
    {
      assert SlotHeadcount(OneLess(before, i, j), k, m) == SlotHeadcount(before, k, m);
    }
    PlanChange(context, after, before, i, j, headcount - Envelope.QUANTUM);
    OneQuantumLess(headcount, SlotMinimum(context, before[i], before[i].resources[j].roleId));
    assert (headcount - Envelope.QUANTUM - headcount) * Width(before[i]) == -(Envelope.QUANTUM * Width(before[i]));
  }

  /**
   * One trial. The headcount comes from the plan as it was when the pass began, which is
   * still current because each slot is visited once.
   */
  method TrySlot(context: Context, current: seq<Period>, period: Period, resource: RoleHeadcount, ghost i: nat, ghost j: nat)
    returns (next: seq<Period>, delivery: Option<nat>)
    requires UniqueSlots(current) && Slot(current, i, j)
    requires period.periodIndex == i && period.startWeek == current[i].startWeek && period.endWeek == current[i].endWeek
    requires resource.roleId == current[i].resources[j].roleId && resource.headcount == current[i].resources[j].headcount
    ensures delivery.None? ==> next == current && Stuck(context, current, i, j)
    ensures delivery.Some? ==>
              && CommitAt(context, current, next, i, j)
              && UniqueSlots(next)
              && context.planner(Bare(next)) == delivery
              && RemovableSlots(context, next) == RemovableSlots(context, current) - 1
  {
    next, delivery := current, None;
    if IsLocked(context, resource.roleId, period.startWeek, period.endWeek) {
      return;
    }
    var minimum := MinimumFor(context, resource.roleId, period.startWeek, period.endWeek);
    var candidateHeadcount := resource.headcount - Envelope.QUANTUM;
    if candidateHeadcount < minimum {
      return;
    }
    var candidate := Candidate(current, period.periodIndex, resource.roleId, Max(0, candidateHeadcount));
    assert candidate == OneLess(current, i, j);
    var found := context.planner(Bare(candidate));
    if found.None? || found.value > context.target {
      return;
    }
    next := Repriced(candidate, context.dayRates);
    delivery := found;
    BareRepriced(candidate, context.dayRates);
    CommitMoves(context, current, next, i, j);
  }

  /** The mutable state of the search. */
  datatype Search = Search(periods: seq<Period>, delivery: nat, committed: bool, trials: nat, found: bool)

  ghost predicate Visited(k: int, m: int, i: int, j: int) {
    k < i || (k == i && m < j)
  }

  /** Mid-pass, before slot (i, j) of the plan the pass began with. */
  ghost predicate InPass(context: Context, snapshot: seq<Period>, state: Search, i: int, j: int) {
    && SameShape(state.periods, snapshot) && UniqueSlots(state.periods)
    && (forall k, m :: Slot(snapshot, k, m) && !Visited(k, m, i, j) ==>
          SlotHeadcount(state.periods, k, m) == SlotHeadcount(snapshot, k, m))
    && (!state.found ==> state.periods == snapshot)
    && (!state.found ==> forall k, m :: Slot(snapshot, k, m) && Visited(k, m, i, j) ==> Stuck(context, snapshot, k, m))
    && (state.found ==> RemovableSlots(context, state.periods) < RemovableSlots(context, snapshot))
  }

  /** What the search can say of its result at any time. */
  ghost predicate Backed(context: Context, state: Search, first: seq<Period>, firstDelivery: nat) {
    if state.committed then context.planner(Bare(state.periods)) == Some(state.delivery) && state.delivery <= context.target
    else state.periods == first && state.delivery == firstDelivery
  }

  lemma NextSlot(context: Context, snapshot: seq<Period>, state: Search, next: Search, i: nat, j: nat)
    requires Slot(snapshot, i, j) && InPass(context, snapshot, state, i, j)
    requires next.periods == state.periods && Stuck(context, state.periods, i, j) && next.found == state.found
    ensures InPass(context, snapshot, next, i, j + 1)
  {
  }

  lemma NextSlotCommitted(context: Context, snapshot: seq<Period>, state: Search, next: Search, i: nat, j: nat)
    requires Slot(snapshot, i, j) && InPass(context, snapshot, state, i, j)
    requires CommitAt(context, state.periods, next.periods, i, j) && next.found && UniqueSlots(next.periods)
    requires RemovableSlots(context, next.periods) == RemovableSlots(context, state.periods) - 1
    ensures InPass(context, snapshot, next, i, j + 1)
  {
    hide MeetsTarget, Stuck, RemovableSlots, StaffedFteWeeks, IsLocked, SlotMinimum;
    forall k, m | Slot(snapshot, k, m) && !Visited(k, m, i, j + 1)
      ensures SlotHeadcount(next.periods, k, m) == SlotHeadcount(snapshot, k, m)
    {
      assert Slot(state.periods, k, m) && !Visited(k, m, i, j);
      assert SlotHeadcount(next.periods, k, m) == SlotHeadcount(state.periods, k, m);
    }
  }

  /** Visit one slot: one trial, and one more step of the trace if it commits. */
  method VisitSlot(context: Context, snapshot: seq<Period>, state: Search, i: nat, j: nat, ghost trace: seq<seq<Period>>,
                   ghost first: seq<Period>, ghost firstDelivery: nat)
    returns (next: Search, ghost longer: seq<seq<Period>>)
    requires Slot(snapshot, i, j) && UniqueSlots(snapshot) && InPass(context, snapshot, state, i, j)
    requires IsRun(context, trace, first, state.periods) && Backed(context, state, first, firstDelivery)
    ensures InPass(context, snapshot, next, i, j + 1)
    ensures IsRun(context, longer, first, next.periods) && Backed(context, next, first, firstDelivery)
    ensures next.trials == state.trials + 1
  {
    assert !Visited(i, j, i, j);
    assert SlotHeadcount(state.periods, i, j) == SlotHeadcount(snapshot, i, j);
    var periods, delivery := TrySlot(context, state.periods, snapshot[i], snapshot[i].resources[j], i, j);
    longer := trace;
    if delivery.None? {
      next := state.(trials := state.trials + 1);
      NextSlot(context, snapshot, state, next, i, j);
    } else {
      next := Search(periods, delivery.value, true, state.trials + 1, true);
      longer := trace + [periods];
      NextSlotCommitted(context, snapshot, state, next, i, j);
      RunAppend(context, trace, first, state.periods, periods);
    }
  }

  method VisitPeriod(context: Context, snapshot: seq<Period>, state: Search, i: nat, maxTrials: nat, ghost trace: seq<seq<Period>>,
                     ghost first: seq<Period>, ghost firstDelivery: nat)
    returns (next: Search, ghost longer: seq<seq<Period>>)
    requires i < |snapshot| && UniqueSlots(snapshot) && InPass(context, snapshot, state, i, 0)
    requires IsRun(context, trace, first, state.periods) && Backed(context, state, first, firstDelivery)
    requires state.trials + |snapshot[i].resources| <= maxTrials
    ensures InPass(context, snapshot, next, i, |snapshot[i].resources|)
    ensures IsRun(context, longer, first, next.periods) && Backed(context, next, first, firstDelivery)
    ensures next.trials == state.trials + |snapshot[i].resources|
  {
    next, longer := state, trace;
    for j := 0 to |snapshot[i].resources|
      invariant InPass(context, snapshot, next, i, j)
      invariant IsRun(context, longer, first, next.periods) && Backed(context, next, first, firstDelivery)
      invariant next.trials == state.trials + j
    {
      if next.trials >= maxTrials {
        break;
      }
      next, longer := VisitSlot(context, snapshot, next, i, j, longer, first, firstDelivery);
    }
  }

  lemma NextPeriod(context: Context, snapshot: seq<Period>, state: Search, i: nat)
    requires i < |snapshot| && InPass(context, snapshot, state, i, |snapshot[i].resources|)
    ensures InPass(context, snapshot, state, i + 1, 0)
  {
  }

  /** One pass over every slot of the plan as it was when the pass began. */
  method ReductionPass(context: Context, state: Search, maxTrials: nat, ghost trace: seq<seq<Period>>,
                       ghost first: seq<Period>, ghost firstDelivery: nat)
    returns (next: Search, ghost longer: seq<seq<Period>>)
    requires UniqueSlots(state.periods)
    requires IsRun(context, trace, first, state.periods) && Backed(context, state, first, firstDelivery)
    requires state.trials + SlotsIn(state.periods) <= maxTrials
    ensures SameShape(next.periods, state.periods) && UniqueSlots(next.periods)
    ensures !next.found ==> next.periods == state.periods && LocallyMinimal(context, next.periods)
    ensures next.found ==> RemovableSlots(context, next.periods) < RemovableSlots(context, state.periods)
    ensures IsRun(context, longer, first, next.periods) && Backed(context, next, first, firstDelivery)
    ensures next.trials == state.trials + SlotsIn(state.periods)
  {
    hide InPass, IsRun, Backed, LocallyMinimal, RemovableSlots, SlotsIn, UniqueSlots, SameShape;
    var snapshot := state.periods;
    next, longer := state.(found := false), trace;
    StartPass(context, state, next, first, firstDelivery);
    ghost var reached: nat := 0;
    for i := 0 to |snapshot|
      invariant reached == i && InPass(context, snapshot, next, i, 0)
      invariant IsRun(context, longer, first, next.periods) && Backed(context, next, first, firstDelivery)
      invariant next.trials == state.trials + SlotsIn(snapshot[..i])
    {
      SlotsInPrefix(snapshot, i);
      next, longer := VisitPeriod(context, snapshot, next, i, maxTrials, longer, first, firstDelivery);
      NextPeriod(context, snapshot, next, i);
      reached := i + 1;
      if next.trials >= maxTrials {
        break;
      }
    }
    assert snapshot[..|snapshot|] == snapshot;
    AllVisited(context, snapshot, next, reached);
    PassKeeps(context, snapshot, next, reached);
  }

  lemma StartPass(context: Context, state: Search, next: Search, first: seq<Period>, firstDelivery: nat)
    requires UniqueSlots(state.periods) && next == state.(found := false) && Backed(context, state, first, firstDelivery)
    ensures InPass(context, state.periods, next, 0, 0) && Backed(context, next, first, firstDelivery)
    ensures SlotsIn(state.periods[..0]) == 0
  {
  }

  lemma PassKeeps(context: Context, snapshot: seq<Period>, state: Search, reached: nat)
    requires InPass(context, snapshot, state, reached, 0)
    ensures SameShape(state.periods, snapshot) && UniqueSlots(state.periods)
    ensures !state.found ==> state.periods == snapshot
    ensures state.found ==> RemovableSlots(context, state.periods) < RemovableSlots(context, snapshot)
  {
  }

  /** Stopping at a full trial count leaves no slot unvisited. */
  lemma AllVisited(context: Context, snapshot: seq<Period>, state: Search, reached: nat)
    requires reached <= |snapshot| && InPass(context, snapshot, state, reached, 0)
    requires SlotsIn(snapshot[..reached]) >= SlotsIn(snapshot)
    ensures SlotsIn(snapshot[..reached]) == SlotsIn(snapshot)
    ensures !state.found ==> LocallyMinimal(context, snapshot)
  {
    NoSlotsLater(snapshot, reached);
    if !state.found {
      forall k, m | Slot(snapshot, k, m)
        ensures Stuck(context, snapshot, k, m)
      {
        assert Visited(k, m, reached, 0);
      }
    }
  }

  lemma {:induction false} NoSlotsLater(periods: seq<Period>, reached: nat)
    requires reached <= |periods|
    ensures SlotsIn(periods[..reached]) <= SlotsIn(periods)
    ensures SlotsIn(periods[..reached]) == SlotsIn(periods) ==>
              forall k, m :: Slot(periods, k, m) ==> k < reached
    decreases |periods|
  {
    if reached == |periods| {
      assert periods[..reached] == periods;
    } else {
      var last := |periods| - 1;
      NoSlotsLater(periods[..last], reached);
      assert periods[..last][..reached] == periods[..reached];
      if SlotsIn(periods[..reached]) == SlotsIn(periods) {
        forall k, m | Slot(periods, k, m)
          ensures k < reached
        {
          if k < last {
            assert Slot(periods[..last], k, m);
          }
        }
      }
    }
  }

  lemma {:induction false} SlotsInPrefix(periods: seq<Period>, i: nat)
    requires i < |periods|
    ensures SlotsIn(periods[..i + 1]) == SlotsIn(periods[..i]) + |periods[i].resources| <= SlotsIn(periods)
    decreases |periods|
  {
    var last := |periods| - 1;
    assert periods[..i + 1][..i] == periods[..i];
    if i < last {
      SlotsInPrefix(periods[..last], i);
      assert periods[..last][..i + 1] == periods[..i + 1] && periods[..last][..i] == periods[..i];
    } else {
      assert periods[..i + 1] == periods;
    }
  }

  lemma {:induction false} SameShapeSlots(a: seq<Period>, b: seq<Period>)
    requires SameShape(a, b)
    ensures SlotsIn(a) == SlotsIn(b)
  {
    if b == [] {
    } else {
      SameShapeSlots(a[..|a| - 1], b[..|b| - 1]);
    }
  }

  /** The trial budget the search computes before it starts. */
  function TrialBudget(context: Context, periods: seq<Period>): nat {
    Max(1, (RemovableSlots(context, periods) + 1) * Max(1, SlotsIn(periods)))
  }

  lemma BudgetSuffices(removable: nat, left: nat, passes: nat, slots: nat)
    requires passes + left <= removable
    ensures passes * slots + slots <= Max(1, (removable + 1) * Max(1, slots))
    ensures passes * slots < Max(1, (removable + 1) * Max(1, slots))
  {
    Envelope.ScaleMonotone(passes + 1, removable + 1, slots);
    Envelope.ScaleMonotone(slots, Max(1, slots), removable + 1);
    assert (passes + 1) * slots == passes * slots + slots;
  }

  lemma SameShapeChain(a: seq<Period>, b: seq<Period>, c: seq<Period>)
    requires SameShape(a, b) && SameShape(b, c)
    ensures SameShape(a, c)
  {
  }

  /** Between passes: every pass so far but the last has removed something, and each has cost one trial per slot. */
  ghost predicate BetweenPasses(context: Context, first: seq<Period>, state: Search, passes: nat) {
    && UniqueSlots(state.periods) && SameShape(state.periods, first)
    && (!state.found ==> LocallyMinimal(context, state.periods))
    && state.trials == passes * SlotsIn(first)
    && (state.found ==> passes + RemovableSlots(context, state.periods) <= RemovableSlots(context, first))
  }

  lemma PassFits(context: Context, first: seq<Period>, state: Search, passes: nat)
    requires BetweenPasses(context, first, state, passes) && state.found
    ensures state.trials < TrialBudget(context, first)
    ensures state.trials + SlotsIn(state.periods) <= TrialBudget(context, first)
  {
    BudgetSuffices(RemovableSlots(context, first), RemovableSlots(context, state.periods), passes, SlotsIn(first));
    SameShapeSlots(state.periods, first);
  }

  lemma PassDone(context: Context, first: seq<Period>, state: Search, next: Search, passes: nat)
    requires BetweenPasses(context, first, state, passes) && state.found
    requires SameShape(next.periods, state.periods) && UniqueSlots(next.periods)
    requires !next.found ==> LocallyMinimal(context, next.periods)
    requires next.found ==> RemovableSlots(context, next.periods) < RemovableSlots(context, state.periods)
    requires next.trials == state.trials + SlotsIn(state.periods)
    ensures BetweenPasses(context, first, next, passes + 1)
  {
    assert SameShape(next.periods, first) by {
      SameShapeChain(next.periods, state.periods, first);
    }
    assert next.trials == (passes + 1) * SlotsIn(first) by {
      SameShapeSlots(state.periods, first);
      OneMore(passes, SlotsIn(first));
    }
  }

  lemma OneMore(count: nat, size: nat)
    ensures (count + 1) * size == count * size + size
  {
  }

  /**
   * The whole search. It ends because a complete pass found nothing to remove, never
   * because the trial budget ran out.
   */
  method ReduceCapacity(context: Context, first: seq<Period>, firstDelivery: nat)
    returns (result: Search, ghost trace: seq<seq<Period>>)
    requires UniqueSlots(first)
    ensures !result.found && LocallyMinimal(context, result.periods)
    ensures result.trials <= TrialBudget(context, first)
    ensures IsRun(context, trace, first, result.periods)
    ensures SameShape(result.periods, first) && UniqueSlots(result.periods)
    ensures Backed(context, result, first, firstDelivery)
  {
    var maxTrials := TrialBudget(context, first);
    result := Search(first, firstDelivery, false, 0, true);
    trace := [first];
    ghost var passes: nat := 0;
    while result.found && result.trials < maxTrials
      invariant BetweenPasses(context, first, result, passes)
      invariant result.trials <= maxTrials
      invariant IsRun(context, trace, first, result.periods) && Backed(context, result, first, firstDelivery)
      decreases if result.found then 1 else 0, RemovableSlots(context, result.periods)
    {
      PassFits(context, first, result, passes);
      ghost var before := result;
      result, trace := ReductionPass(context, result, maxTrials, trace, first, firstDelivery);
      PassDone(context, first, before, result, passes);
      passes := passes + 1;
    }
    if result.found {
      PassFits(context, first, result, passes);
    }
  }
}
