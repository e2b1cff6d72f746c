/**
 * Growing capacity one quantum at a time: what one step does, which weeks are worth it, and the
 * two loops that recover an infeasible start and grow towards the target.
 */
module Growth {
  import opened Common
  import opened Scheduler
  import opened Plan
  import opened DraftCapacity
  import opened Envelope
  import DraftSegments
  import Sorting

  // ── One quantum ────────────────────────────────────────────────────────────

  /** A count raised by a quantum, up to the people plus what the maximum leaves beside them. */
  function RaisedCount(rt: ResourceType, week: int, maxFte: Option<nat>): nat {
    if maxFte.None? then rt.count + QUANTUM
    else
      var maxCount := 100 * |rt.namedResources| + Max(0, maxFte.value - NamedCapacity(rt.namedResources, week));
      if rt.count >= maxCount then rt.count else Min(maxCount, rt.count + QUANTUM)
  }

  function RaisedPercent(percent: nat, named: nat, maxFte: Option<nat>): nat {
    if maxFte.None? then percent + QUANTUM
    else
      var maximumPercent := Max(0, maxFte.value - named);
      if percent >= maximumPercent then percent else Min(maximumPercent, percent + QUANTUM)
  }

  /** Only the first window of the week that can still rise is raised. */
  function RaisedSegments(segments: seq<Segment>, week: int, named: nat, maxFte: Option<nat>): seq<Segment> {
    if segments == [] then []
    else if Covers(segments[0], week) && RaisedPercent(segments[0].percent, named, maxFte) > segments[0].percent then
      [segments[0].(percent := RaisedPercent(segments[0].percent, named, maxFte))] + segments[1..]
    else [segments[0]] + RaisedSegments(segments[1..], week, named, maxFte)
  }

  function AugmentRole(rt: ResourceType, week: int, maxFte: Option<nat>): ResourceType {
    if rt.roleSegments.None? || rt.roleSegments.value == [] then rt.(count := RaisedCount(rt, week, maxFte))
    else
      var named := NamedCapacity(rt.namedResources, week);
      rt.(roleSegments := Some(RaisedSegments(rt.roleSegments.value, week, named, maxFte)))
  }

  function AugmentResourceType(resourceTypes: seq<ResourceType>, roleId: Id, week: int, maxFte: Option<nat>): (r: seq<ResourceType>)
    ensures |r| == |resourceTypes|
  {
    seq(|resourceTypes|, k requires 0 <= k < |resourceTypes| =>
      if resourceTypes[k].id == roleId then AugmentRole(resourceTypes[k], week, maxFte) else resourceTypes[k])
  }

  lemma {:induction false} RaisedFirst(segments: seq<Segment>, week: int, named: nat, maxFte: Option<nat>)
    ensures var first := FirstCovering(segments, week);
            var raised := FirstCovering(RaisedSegments(segments, week, named, maxFte), week);
            && (raised.Some? <==> first.Some?)
            && (first.Some? ==> raised.value.percent == RaisedPercent(first.value.percent, named, maxFte))
  {
    if segments != [] && !Covers(segments[0], week) {
      RaisedFirst(segments[1..], week, named, maxFte);
    }
  }

  /** What one step does to the capacity of its week: a quantum more, never past the maximum it did not already exceed. */
  lemma AugmentAtMostOneQuantum(rt: ResourceType, week: int, maxFte: Option<nat>)
    ensures var before := WeeklyCapacity(rt, week);
            var after := WeeklyCapacity(AugmentRole(rt, week, maxFte), week);
            before <= after <= before + QUANTUM && (maxFte.Some? ==> after <= Max(before, maxFte.value))
  {
    if rt.roleSegments.Some? {
      RaisedFirst(rt.roleSegments.value, week, NamedCapacity(rt.namedResources, week), maxFte);
    }
  }

  /** A week may grow inside some window, below the useful bound and below the maximum. */
  predicate CanGrowAt(rt: ResourceType, week: int, useful: Option<nat>, maxFte: Option<nat>) {
    && IsWithinRoleWindow(rt, week)
    && (useful.Some? ==> WeeklyCapacity(rt, week) < useful.value)
    && (maxFte.Some? ==> WeeklyCapacity(rt, week) < maxFte.value)
  }

  /**
   * Where growth is admitted it takes effect, with one exception: a role without a profile whose
   * people outnumber its count by a quantum or more gains nothing from a raised count.
   */
  lemma GrowthFailsExactly(rt: ResourceType, week: int, useful: Option<nat>, maxFte: Option<nat>)
    requires CanGrowAt(rt, week, useful, maxFte)
    ensures WeeklyCapacity(AugmentRole(rt, week, maxFte), week) == WeeklyCapacity(rt, week)
       <==> rt.roleSegments.None? && rt.count + QUANTUM <= 100 * |rt.namedResources|
  {
    if rt.roleSegments.Some? {
      RaisedFirst(rt.roleSegments.value, week, NamedCapacity(rt.namedResources, week), maxFte);
      DraftSegments.CoveredIffFirst(rt.roleSegments.value, week);
    }
  }

  // ── Which weeks ────────────────────────────────────────────────────────────

  const EPSILON := 0.000001

  datatype ScoredWeek = ScoredWeek(week: int, score: real)

  predicate BetterWeek(a: ScoredWeek, b: ScoredWeek) {
    if a.score != b.score then a.score > b.score else a.week <= b.week
  }

  function Tightness(days: real, capacity: nat): real {
    var capacityDays := capacity as real / 100.0 * 5.0;
    days / (if capacityDays < EPSILON then EPSILON else capacityDays)
  }

  function DemandWeeks(rt: ResourceType, demand: seq<real>, n: nat): seq<ScoredWeek>
    requires n <= |demand|
  {
    if n == 0 then []
    else
      DemandWeeks(rt, demand, n - 1)
      + if demand[n - 1] > EPSILON then [ScoredWeek(n - 1, Tightness(demand[n - 1], WeeklyCapacity(rt, n - 1)))] else []
  }

  function SegmentStarts(segments: seq<Segment>): seq<ScoredWeek> {
    seq(|segments|, k requires 0 <= k < |segments| => ScoredWeek(segments[k].startWeek, 0.0))
  }

  function NamedStarts(resources: seq<NamedResource>): seq<ScoredWeek> {
    seq(|resources|, k requires 0 <= k < |resources| =>
      ScoredWeek(if resources[k].startWeek.Some? then resources[k].startWeek.value else 0, 0.0))
  }

  function DistinctWeeks(scored: seq<ScoredWeek>): seq<int> {
    if scored == [] then []
    else
      var before := DistinctWeeks(scored[..|scored| - 1]);
      var week := scored[|scored| - 1].week;
      if week in before then before else before + [week]
  }

  /** Demanded weeks, tightest first; without demand the profile's starts, the people's starts, or week 0. */
  function ChooseGrowthWeeks(rt: ResourceType, demand: seq<real>): seq<int> {
    var byDemand := DemandWeeks(rt, demand, |demand|);
    var scored :=
      if byDemand != [] then byDemand
      else if rt.roleSegments.Some? && rt.roleSegments.value != [] then SegmentStarts(rt.roleSegments.value)
      else if rt.namedResources != [] then NamedStarts(rt.namedResources)
      else [ScoredWeek(0, 0.0)];
    DistinctWeeks(Sorting.SortBy(scored, BetterWeek))
  }

  // ── The planner and the search state ───────────────────────────────────────

  /** A blocker of a failed or late run; some prove that more of a role cannot help. */
  datatype Blocker = Blocker(roleId: Option<Id>, stopsGrowth: bool)

  /** A schedule: its delivery time in hundredths of a week, if it ever completes, and weekly demand in days. */
  datatype Schedule = Schedule(delivery: Option<nat>, demand: map<Id, seq<real>>)

  datatype Attempt = Planned(schedule: Schedule) | Infeasible(blockers: seq<Blocker>)

  /** A deterministic planner run on a list of resource types. */
  type Planner = seq<ResourceType> -> Attempt

  /** What the loops hold fixed. Roles without demand have no useful bound. */
  datatype Setup = Setup(planner: Planner, useful: map<Id, nat>, maxCap: map<Id, nat>, draft: Option<seq<CapacityEdit>>)

  function UsefulCapacity(setup: Setup, roleId: Id): Option<nat> {
    if roleId !in setup.useful then None
    else if roleId in setup.maxCap then Some(Min(setup.maxCap[roleId], setup.useful[roleId]))
    else Some(setup.useful[roleId])
  }

  function Edits(setup: Setup): seq<CapacityEdit> {
    if setup.draft.Some? then setup.draft.value else []
  }

  /** One step of growth, with the draft's locks put back over it. */
  function Grown(setup: Setup, resourceTypes: seq<ResourceType>, roleId: Id, week: int): (r: seq<ResourceType>)
    ensures |r| == |resourceTypes|
  {
    Restored(AugmentResourceType(resourceTypes, roleId, week, CapOf(setup.maxCap, roleId)), LockedEdits(Edits(setup)))
  }

  method Grow(setup: Setup, resourceTypes: seq<ResourceType>, roleId: Id, week: int) returns (grown: seq<ResourceType>)
    ensures grown == Grown(setup, resourceTypes, roleId, week)
  {
    var augmented := AugmentResourceType(resourceTypes, roleId, week, CapOf(setup.maxCap, roleId));
    if setup.draft.Some? {
      grown := RestoreDraftLockedCapacity(augmented, setup.draft.value);
    } else {
      NothingToRestore(augmented);
      grown := augmented;
    }
  }

  lemma NothingToRestore(resourceTypes: seq<ResourceType>)
    ensures Restored(resourceTypes, LockedEdits([])) == resourceTypes
  {
  }

  /** The same roles in the same order, with the same people. */
  ghost predicate SameRoles(a: seq<ResourceType>, b: seq<ResourceType>) {
    |a| == |b| && forall k :: 0 <= k < |a| ==> a[k].id == b[k].id && a[k].namedResources == b[k].namedResources
  }

  lemma GrownSameRoles(setup: Setup, resourceTypes: seq<ResourceType>, roleId: Id, week: int)
    ensures SameRoles(Grown(setup, resourceTypes, roleId, week), resourceTypes)
  {
  }

  lemma {:induction false} SameRolesFound(a: seq<ResourceType>, b: seq<ResourceType>, roleId: Id)
    requires SameRoles(a, b)
    ensures FindResourceType(a, roleId).Some? <==> FindResourceType(b, roleId).Some?
    ensures FindResourceType(a, roleId).Some? ==>
              && FindResourceType(a, roleId).value.id == roleId
              && FindResourceType(a, roleId).value.namedResources == FindResourceType(b, roleId).value.namedResources
  {
    if a == [] {
    } else {
      SameRolesFound(a[1..], b[1..], roleId);
    }
  }

  /** The capacity of a role in a week, as the loops look it up. */
  function CapacityOf(resourceTypes: seq<ResourceType>, roleId: Id, week: int): nat {
    var rt := FindResourceType(resourceTypes, roleId);
    if rt.Some? then WeeklyCapacity(rt.value, week) else 0
  }

  // ── Raising one role ───────────────────────────────────────────────────────

  /**
   * Raise a role to its useful bound in one candidate. Every kept step strictly raises the week's
   * capacity; the raise stops at the bound, or where a step, its locks restored, gains nothing.
   */
  method RaiseRole(setup: Setup, resourceTypes: seq<ResourceType>, roleId: Id, week: int)
    returns (next: seq<ResourceType>, capacity: nat)
    requires FindResourceType(resourceTypes, roleId).Some?
    ensures SameRoles(next, resourceTypes) && capacity == CapacityOf(next, roleId, week)
    ensures CapacityOf(resourceTypes, roleId, week) <= capacity
    ensures capacity == CapacityOf(resourceTypes, roleId, week) ==> next == resourceTypes
    ensures || CapacityOf(Grown(setup, next, roleId, week), roleId, week) <= capacity
            || UsefulCapacity(setup, roleId).None? || capacity >= UsefulCapacity(setup, roleId).value
  {
    hide WeeklyCapacity, Grown;
    var usefulTarget := UsefulCapacity(setup, roleId);
    next, capacity := resourceTypes, CapacityOf(resourceTypes, roleId, week);
    while true
      invariant SameRoles(next, resourceTypes) && capacity == CapacityOf(next, roleId, week)
      invariant CapacityOf(resourceTypes, roleId, week) <= capacity
      invariant capacity == CapacityOf(resourceTypes, roleId, week) ==> next == resourceTypes
      decreases if usefulTarget.Some? then Max(0, usefulTarget.value - capacity) else 0
    {
      var augmented := Grow(setup, next, roleId, week);
      GrownSameRoles(setup, next, roleId, week);
      SameRolesFound(augmented, resourceTypes, roleId);
      var candidate := FindResourceType(augmented, roleId);
      if WeeklyCapacity(candidate.value, week) <= capacity {
        break;
      }
      next, capacity := augmented, WeeklyCapacity(candidate.value, week);
      if usefulTarget.None? || capacity >= usefulTarget.value {
        break;
      }
    }
  }

  // ── Choosing where to grow ─────────────────────────────────────────────────

  /** A tried combination of role, week and capacity. */
  datatype Probe = Probe(roleId: Id, week: int, capacity: nat)

  datatype Candidate = Candidate(roleId: Id, week: int)

  function ProbeOf(resourceTypes: seq<ResourceType>, roleId: Id, week: int): Probe {
    Probe(roleId, week, CapacityOf(resourceTypes, roleId, week))
  }

  predicate Worthwhile(setup: Setup, resourceTypes: seq<ResourceType>, probes: set<Probe>, roleId: Id, week: int) {
    var rt := FindResourceType(resourceTypes, roleId);
    && rt.Some?
    && CanGrowAt(rt.value, week, UsefulCapacity(setup, roleId), CapOf(setup.maxCap, roleId))
    && ProbeOf(resourceTypes, roleId, week) !in probes
  }

  function FirstWeek(setup: Setup, resourceTypes: seq<ResourceType>, probes: set<Probe>, roleId: Id, weeks: seq<int>): Option<int> {
    if weeks == [] then None
    else if Worthwhile(setup, resourceTypes, probes, roleId, weeks[0]) then Some(weeks[0])
    else FirstWeek(setup, resourceTypes, probes, roleId, weeks[1..])
  }

  function WeeksFor(resourceTypes: seq<ResourceType>, roleId: Id, demand: map<Id, seq<real>>): seq<int> {
    var rt := FindResourceType(resourceTypes, roleId);
    if rt.None? then [] else ChooseGrowthWeeks(rt.value, if roleId in demand then demand[roleId] else [])
  }

  /** The first role, in order, with a week worth growing. */
  function ChooseGrowth(setup: Setup, resourceTypes: seq<ResourceType>, probes: set<Probe>, blocked: set<Id>,
                        demand: map<Id, seq<real>>, roleIds: seq<Id>): Option<Candidate>
  {
    if roleIds == [] then None
    else
      var week := FirstWeek(setup, resourceTypes, probes, roleIds[0], WeeksFor(resourceTypes, roleIds[0], demand));
      if roleIds[0] !in blocked && week.Some? then Some(Candidate(roleIds[0], week.value))
      else ChooseGrowth(setup, resourceTypes, probes, blocked, demand, roleIds[1..])
  }

  lemma {:induction false} FirstWeekIs(setup: Setup, resourceTypes: seq<ResourceType>, probes: set<Probe>, roleId: Id, weeks: seq<int>)
    ensures var week := FirstWeek(setup, resourceTypes, probes, roleId, weeks);
            if week.Some? then week.value in weeks && Worthwhile(setup, resourceTypes, probes, roleId, week.value)
            else forall w :: w in weeks ==> !Worthwhile(setup, resourceTypes, probes, roleId, w)
  {
    if weeks == [] {
    } else {
      FirstWeekIs(setup, resourceTypes, probes, roleId, weeks[1..]);
    }
  }

  ghost predicate NothingLeft(setup: Setup, resourceTypes: seq<ResourceType>, probes: set<Probe>, blocked: set<Id>,
                              demand: map<Id, seq<real>>, roleIds: seq<Id>) {
    forall roleId, week :: roleId in roleIds && roleId !in blocked && week in WeeksFor(resourceTypes, roleId, demand) ==>
      !Worthwhile(setup, resourceTypes, probes, roleId, week)
  }

  lemma {:induction false} ChooseGrowthIs(setup: Setup, resourceTypes: seq<ResourceType>, probes: set<Probe>, blocked: set<Id>,
                                          demand: map<Id, seq<real>>, roleIds: seq<Id>)
    ensures var growth := ChooseGrowth(setup, resourceTypes, probes, blocked, demand, roleIds);
            if growth.Some? then
              && growth.value.roleId in roleIds && growth.value.roleId !in blocked
              && growth.value.week in WeeksFor(resourceTypes, growth.value.roleId, demand)
              && Worthwhile(setup, resourceTypes, probes, growth.value.roleId, growth.value.week)
            else NothingLeft(setup, resourceTypes, probes, blocked, demand, roleIds)
  {
    hide Worthwhile, WeeksFor;
    if roleIds == [] {
    } else {
      FirstWeekIs(setup, resourceTypes, probes, roleIds[0], WeeksFor(resourceTypes, roleIds[0], demand));
      ChooseGrowthIs(setup, resourceTypes, probes, blocked, demand, roleIds[1..]);
    }
  }

  // ── Recovering an infeasible start ─────────────────────────────────────────

  function RoleIds(resourceTypes: seq<ResourceType>): seq<Id> {
    if resourceTypes == [] then [] else RoleIds(resourceTypes[..|resourceTypes| - 1]) + [resourceTypes[|resourceTypes| - 1].id]
  }

  function DemandedIds(setup: Setup, resourceTypes: seq<ResourceType>): seq<Id> {
    if resourceTypes == [] then []
    else
      var last := resourceTypes[|resourceTypes| - 1];
      DemandedIds(setup, resourceTypes[..|resourceTypes| - 1])
      + if UsefulCapacity(setup, last.id).Some? then [last.id] else []
  }

  function BlockerIds(blockers: seq<Blocker>): seq<Id> {
    if blockers == [] then []
    else
      BlockerIds(blockers[..|blockers| - 1])
      + if blockers[|blockers| - 1].roleId.Some? then [blockers[|blockers| - 1].roleId.value] else []
  }

  /** Roles named by the last failure first, then every demanded role. */
  function RecoveryOrder(setup: Setup, resourceTypes: seq<ResourceType>, blockers: seq<Blocker>): seq<Id> {
    BlockerIds(blockers) + DemandedIds(setup, resourceTypes)
  }

  /** Every probe that unchanged resource types can still produce. */
  ghost function ProbesFrom(resourceTypes: seq<ResourceType>): set<Probe> {
    set roleId, week | roleId in RoleIds(resourceTypes) && week in WeeksFor(resourceTypes, roleId, map[]) ::
      ProbeOf(resourceTypes, roleId, week)
  }

  lemma {:induction false} FoundIsListed(resourceTypes: seq<ResourceType>, roleId: Id)
    requires FindResourceType(resourceTypes, roleId).Some?
    ensures roleId in RoleIds(resourceTypes)
    decreases |resourceTypes|
  {
    var last := |resourceTypes| - 1;
    FindInFront(resourceTypes, roleId);
    if FindResourceType(resourceTypes[..last], roleId).Some? {
      FoundIsListed(resourceTypes[..last], roleId);
    }
  }

  lemma {:induction false} FindInFront(resourceTypes: seq<ResourceType>, roleId: Id)
    requires resourceTypes != []
    ensures FindResourceType(resourceTypes, roleId).Some? <==>
              FindResourceType(resourceTypes[..|resourceTypes| - 1], roleId).Some? || resourceTypes[|resourceTypes| - 1].id == roleId
  {
    if |resourceTypes| <= 1 {
    } else {
      assert resourceTypes[1..][..|resourceTypes| - 2] == resourceTypes[..|resourceTypes| - 1][1..];
      FindInFront(resourceTypes[1..], roleId);
    }
  }

  /** The state of the recovery. */
  datatype Recovery = Recovery(resourceTypes: seq<ResourceType>, last: Attempt, attempts: nat, probes: set<Probe>)

  /** A new probe shrinks what unchanged resource types leave to try. */
  lemma ProbeShrinks(setup: Setup, state: Recovery, growth: Candidate)
    requires growth.week in WeeksFor(state.resourceTypes, growth.roleId, map[])
    requires Worthwhile(setup, state.resourceTypes, state.probes, growth.roleId, growth.week)
    ensures var probe := ProbeOf(state.resourceTypes, growth.roleId, growth.week);
            && probe in ProbesFrom(state.resourceTypes) - state.probes
            && |ProbesFrom(state.resourceTypes) - (state.probes + {probe})| < |ProbesFrom(state.resourceTypes) - state.probes|
  {
    var probe := ProbeOf(state.resourceTypes, growth.roleId, growth.week);
    FoundIsListed(state.resourceTypes, growth.roleId);
    assert probe in ProbesFrom(state.resourceTypes);
    var open := ProbesFrom(state.resourceTypes) - state.probes;
    assert ProbesFrom(state.resourceTypes) - (state.probes + {probe}) == open - {probe};
  }

  /**
   * The recovery loop. It ends: an attempt is counted, or, with the resource types unchanged, one
   * more probe is spent. It ends with a schedule, or out of attempts, or with nothing left to try.
   */
  method Recover(setup: Setup, initial: seq<ResourceType>, first: Attempt, maxAttempts: nat) returns (state: Recovery)
    requires setup.planner(initial) == first
    ensures state.attempts <= maxAttempts && SameRoles(state.resourceTypes, initial)
    ensures setup.planner(state.resourceTypes) == state.last
    ensures || state.last.Planned? || state.attempts == maxAttempts
            || NothingLeft(setup, state.resourceTypes, state.probes, {}, map[],
                           RecoveryOrder(setup, state.resourceTypes, state.last.blockers))
    ensures first.Planned? ==> state.resourceTypes == initial
  {
    hide Worthwhile, WeeksFor, CapacityOf;
    state := Recovery(initial, first, 0, {});
    while state.last.Infeasible? && state.attempts < maxAttempts
      invariant state.attempts <= maxAttempts && SameRoles(state.resourceTypes, initial)
      invariant setup.planner(state.resourceTypes) == state.last
      invariant first.Planned? ==> state.resourceTypes == initial
      decreases maxAttempts - state.attempts, |ProbesFrom(state.resourceTypes) - state.probes|
    {
      var order := RecoveryOrder(setup, state.resourceTypes, state.last.blockers);
      var growth := ChooseGrowth(setup, state.resourceTypes, state.probes, {}, map[], order);
      ChooseGrowthIs(setup, state.resourceTypes, state.probes, {}, map[], order);
      if growth.None? {
        break;
      }
      var Candidate(roleId, week) := growth.value;
      ProbeShrinks(setup, state, growth.value);
      var probe := ProbeOf(state.resourceTypes, roleId, week);
      WorthwhileIsFound(setup, state.resourceTypes, state.probes, roleId, week);
      var next, capacity := RaiseRole(setup, state.resourceTypes, roleId, week);
      if capacity <= CapacityOf(state.resourceTypes, roleId, week) {
        state := state.(probes := state.probes + {probe});
        continue;
      }
      state := Recovery(next, setup.planner(next), state.attempts + 1, state.probes + {probe});
    }
  }

  lemma WorthwhileIsFound(setup: Setup, resourceTypes: seq<ResourceType>, probes: set<Probe>, roleId: Id, week: int)
    requires Worthwhile(setup, resourceTypes, probes, roleId, week)
    ensures FindResourceType(resourceTypes, roleId).Some?
  {
  }

  // ── Growing towards the target ─────────────────────────────────────────────

  predicate InTime(delivery: Option<nat>, target: nat) {
    delivery.Some? && delivery.value <= target
  }

  predicate Sooner(a: Option<nat>, b: Option<nat>) {
    a.Some? && (b.None? || a.value < b.value)
  }

  function RoleScore(rt: ResourceType, demand: seq<real>, n: nat): (real, real)
    requires n <= |demand|
  {
    if n == 0 then (0.0, 0.0)
    else
      var (total, score) := RoleScore(rt, demand, n - 1);
      if demand[n - 1] <= EPSILON then (total, score)
      else
        var tightness := Tightness(demand[n - 1], WeeklyCapacity(rt, n - 1));
        (total + demand[n - 1], if tightness > score then tightness else score)
  }

  /** The role with the tightest week, total demand breaking near ties; none without demand. */
  function IdentifyBottleneckRole(resourceTypes: seq<ResourceType>, demand: map<Id, seq<real>>): Option<(Id, real)> {
    if resourceTypes == [] then None
    else
      var before := IdentifyBottleneckRole(resourceTypes[..|resourceTypes| - 1], demand);
      var rt := resourceTypes[|resourceTypes| - 1];
      var days := if rt.id in demand then demand[rt.id] else [];
      var (total, roleScore) := RoleScore(rt, days, |days|);
      var score := roleScore + total * 0.0000000001;
      if total <= EPSILON then before
      else if before.None? || score > before.value.1 then Some((rt.id, score)) else before
  }

  function OthersThan(ids: seq<Id>, roleId: Id): seq<Id> {
    if ids == [] then [] else (if ids[0] != roleId then [ids[0]] else []) + OthersThan(ids[1..], roleId)
  }

  function StoppedRoles(blockers: seq<Blocker>): set<Id> {
    set b | b in blockers && b.roleId.Some? && b.stopsGrowth :: b.roleId.value
  }

  /** The best validated schedule so far with the resource types it was planned on, and the current ones. */
  datatype GrowthState = GrowthState(
    current: seq<ResourceType>,
    last: Schedule,
    best: Schedule,
    bestTypes: seq<ResourceType>,
    iterations: nat,
    probes: set<Probe>,
    blocked: set<Id>)

  ghost predicate GrowthValid(setup: Setup, state: GrowthState, initial: seq<ResourceType>, first: Schedule) {
    && SameRoles(state.current, initial) && SameRoles(state.bestTypes, initial)
    && setup.planner(state.bestTypes) == Planned(state.best)
    && (state.best.delivery == first.delivery || Sooner(state.best.delivery, first.delivery))
  }

  /** One iteration of the growth loop, after its week has been chosen. */
  method GrowOnce(setup: Setup, state: GrowthState, growth: Candidate, ghost initial: seq<ResourceType>, ghost first: Schedule)
    returns (next: GrowthState)
    requires GrowthValid(setup, state, initial, first)
    requires FindResourceType(state.current, growth.roleId).Some?
    ensures GrowthValid(setup, next, initial, first) && next.iterations == state.iterations
    ensures next.best.delivery == state.best.delivery || Sooner(next.best.delivery, state.best.delivery)
  {
    hide WeeklyCapacity, Grown;
    var roleId, week := growth.roleId, growth.week;
    next := state.(probes := state.probes + {ProbeOf(state.current, roleId, week)});
    var grown := Grow(setup, state.current, roleId, week);
    GrownSameRoles(setup, state.current, roleId, week);
    if CapacityOf(grown, roleId, week) <= CapacityOf(state.current, roleId, week) {
      return;
    }
    next := next.(current := grown);
    match setup.planner(grown) {
      case Planned(schedule) =>
        next := next.(last := schedule);
        if Sooner(schedule.delivery, state.best.delivery) {
          next := next.(best := schedule, bestTypes := grown);
        }
      case Infeasible(blockers) =>
        next := next.(blocked := next.blocked + StoppedRoles(blockers));
    }
  }

  /**
   * The growth loop keeps the soonest schedule found together with the types it was planned on. It
   * stops at the target, at the iteration limit, or when no role has a week left to grow.
   */
  method GrowToTarget(setup: Setup, initial: seq<ResourceType>, first: Schedule, blocked: set<Id>, target: nat, maxIterations: nat)
    returns (state: GrowthState, exhausted: bool)
    requires setup.planner(initial) == Planned(first)
    ensures GrowthValid(setup, state, initial, first) && state.iterations <= maxIterations
    ensures InTime(state.best.delivery, target) || state.iterations == maxIterations || exhausted
    ensures exhausted ==>
              || IdentifyBottleneckRole(state.current, state.last.demand).None?
              || (var primary := IdentifyBottleneckRole(state.current, state.last.demand).value.0;
                  NothingLeft(setup, state.current, state.probes, state.blocked, state.last.demand,
                              [primary] + OthersThan(RoleIds(state.current), primary)))
  {
    hide Worthwhile, WeeksFor, CapacityOf, IdentifyBottleneckRole;
    state := GrowthState(initial, first, first, initial, 0, {}, blocked);
    exhausted := false;
    while state.iterations < maxIterations && !InTime(state.best.delivery, target)
      invariant GrowthValid(setup, state, initial, first) && state.iterations <= maxIterations
      decreases maxIterations - state.iterations
    {
      var demand := state.last.demand;
      state := state.(iterations := state.iterations + 1);
      var bottleneck := IdentifyBottleneckRole(state.current, demand);
      if bottleneck.None? {
        exhausted := true;
        break;
      }
      var order := [bottleneck.value.0] + OthersThan(RoleIds(state.current), bottleneck.value.0);
      var growth := ChooseGrowth(setup, state.current, state.probes, state.blocked, demand, order);
      ChooseGrowthIs(setup, state.current, state.probes, state.blocked, demand, order);
      if growth.None? {
        exhausted := true;
        break;
      }
      WorthwhileIsFound(setup, state.current, state.probes, growth.value.roleId, growth.value.week);
      state := GrowOnce(setup, state, growth.value, initial, first);
    }
  }
}
