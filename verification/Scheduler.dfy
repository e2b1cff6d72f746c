/**
 * The scheduler's view of capacity: named people, role profiles and the weekly
 * full-time equivalent (FTE) they supply. FTE and percentages are both counted in
 * hundredths, so 100 is one person at 100%.
 */
module Scheduler {
  import opened Common

  type Id = string

  /** The last week of an inclusive window; Open never ends. */
  datatype End = Week(week: int) | Open

  datatype Segment = Segment(startWeek: int, endWeek: End, percent: nat)

  datatype AllocationMode = FullProject | Timeline | CapacityPlan | Effort

  datatype NamedResource = NamedResource(
    startWeek: Option<int>,
    endWeek: Option<int>,
    mode: AllocationMode,
    allocationPercent: nat,
    allocationStartWeek: Option<int>,
    allocationEndWeek: Option<int>,
    capacitySegments: seq<Segment>)

  datatype ResourceType = ResourceType(
    id: Id,
    count: nat,
    namedResources: seq<NamedResource>,
    roleSegments: Option<seq<Segment>>)

  predicate Reaches(end: End, week: int) {
    end.Open? || week <= end.week
  }

  predicate Covers(segment: Segment, week: int) {
    segment.startWeek <= week && Reaches(segment.endWeek, week)
  }

  function FirstCovering(segments: seq<Segment>, week: int): Option<Segment> {
    if segments == [] then None
    else if Covers(segments[0], week) then Some(segments[0])
    else FirstCovering(segments[1..], week)
  }

  predicate WithinOptional(start: Option<int>, end: Option<int>, week: int) {
    (if start.Some? then start.value else 0) <= week && (end.Some? ==> week <= end.value)
  }

  function EffectiveAllocation(resource: NamedResource, week: int): nat {
    if resource.capacitySegments != [] then
      var segment := FirstCovering(resource.capacitySegments, week);
      if segment.Some? then segment.value.percent else 0
    else
      match resource.mode
      case FullProject => resource.allocationPercent
      case Timeline =>
        var start := if resource.allocationStartWeek.Some? then resource.allocationStartWeek else resource.startWeek;
        var end := if resource.allocationEndWeek.Some? then resource.allocationEndWeek else resource.endWeek;
        if WithinOptional(start, end, week) then resource.allocationPercent else 0
      case CapacityPlan => resource.allocationPercent
      case Effort => 100
  }

  /** Capacity segments are authoritative; without them the physical window guards the allocation. */
  predicate Present(resource: NamedResource, week: int) {
    resource.capacitySegments != [] || WithinOptional(resource.startWeek, resource.endWeek, week)
  }

  function Contribution(resource: NamedResource, week: int): nat {
    if Present(resource, week) then EffectiveAllocation(resource, week) else 0
  }

  function NamedCapacity(resources: seq<NamedResource>, week: int): nat {
    if resources == [] then 0
    else NamedCapacity(resources[..|resources| - 1], week) + Contribution(resources[|resources| - 1], week)
  }

  method NamedCapacityFte(rt: ResourceType, week: int) returns (capacity: nat)
    ensures capacity == NamedCapacity(rt.namedResources, week)
  {
    capacity := 0;
    for i := 0 to |rt.namedResources|
      invariant capacity == NamedCapacity(rt.namedResources[..i], week)
    {
      var resource := rt.namedResources[i];
      assert rt.namedResources[..i + 1][..i] == rt.namedResources[..i];
      if resource.capacitySegments == [] && !WithinOptional(resource.startWeek, resource.endWeek, week) {
        continue;
      }
      capacity := capacity + EffectiveAllocation(resource, week);
    }
    assert rt.namedResources[..|rt.namedResources|] == rt.namedResources;
  }

  predicate IsWithinRoleWindow(rt: ResourceType, week: int) {
    rt.roleSegments == None || exists i :: 0 <= i < |rt.roleSegments.value| && Covers(rt.roleSegments.value[i], week)
  }

  function BaseUnnamedSlots(rt: ResourceType): nat {
    Max(0, rt.count - 100 * |rt.namedResources|)
  }

  /** Role capacity on top of the named people: the covering profile segment, or the unnamed slots. */
  function BaseSyntheticCapacity(rt: ResourceType, week: int): nat {
    if rt.roleSegments.Some? then
      var segment := FirstCovering(rt.roleSegments.value, week);
      if segment.Some? then segment.value.percent else 0
    else BaseUnnamedSlots(rt)
  }

  predicate CanMaterializeSyntheticCapacity(rt: ResourceType, envelopeHeadcount: nat) {
    if rt.roleSegments.Some? then rt.roleSegments.value != []
    else BaseUnnamedSlots(rt) > 0 || envelopeHeadcount > rt.count
  }

  /** Everything the scheduler may use of a role in one week. */
  function WeeklyCapacity(rt: ResourceType, week: int): nat {
    BaseSyntheticCapacity(rt, week) + NamedCapacity(rt.namedResources, week)
  }

  lemma {:induction false} NamedCapacityAppend(a: seq<NamedResource>, b: seq<NamedResource>, week: int)
    ensures NamedCapacity(a + b, week) == NamedCapacity(a, week) + NamedCapacity(b, week)
  {
    if b == [] {
      assert a + b == a;
    } else {
      assert (a + b)[..|a + b| - 1] == a + b[..|b| - 1];
      NamedCapacityAppend(a, b[..|b| - 1], week);
    }
  }
}
