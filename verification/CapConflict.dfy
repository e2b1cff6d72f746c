/** Rejecting a maximum that protected named people already exceed, by looking at a few weeks only. */
module CapConflict {
  import opened Common
  import opened Scheduler
  import DraftSegments

  /** A week at which something starts or ends, and the week after it. */
  function Edges(week: Option<int>): seq<int> {
    if week.Some? then [week.value, week.value + 1] else []
  }

  function SegmentEdges(segments: seq<Segment>): seq<int> {
    if segments == [] then []
    else
      var last := segments[|segments| - 1];
      SegmentEdges(segments[..|segments| - 1])
      + Edges(Some(last.startWeek)) + Edges(if last.endWeek.Week? then Some(last.endWeek.week) else None)
  }

  function ResourceEdges(resource: NamedResource): seq<int> {
    Edges(resource.startWeek) + Edges(resource.endWeek)
    + Edges(resource.allocationStartWeek) + Edges(resource.allocationEndWeek) + SegmentEdges(resource.capacitySegments)
  }

  /** The weeks inspected: the first one, and those around every listed start and end. */
  function ConflictWeeks(resources: seq<NamedResource>): seq<int> {
    if resources == [] then [0]
    else ConflictWeeks(resources[..|resources| - 1]) + ResourceEdges(resources[|resources| - 1])
  }

  predicate ExceedsAt(resources: seq<NamedResource>, cap: nat, week: int) {
    NamedCapacity(resources, week) > cap
  }

  lemma {:induction false} SegmentBoundsAreEdges(segments: seq<Segment>, x: int)
    requires x in DraftSegments.SegmentBounds(segments)
    ensures x in SegmentEdges(segments)
  {
    if segments != [] && x in DraftSegments.SegmentBounds(segments[..|segments| - 1]) {
      SegmentBoundsAreEdges(segments[..|segments| - 1], x);
    }
  }

  lemma ResourceBoundsAreEdges(resource: NamedResource, x: int)
    requires x in DraftSegments.ResourceBounds(resource)
    ensures x == 0 || x in ResourceEdges(resource)
  {
    if x in DraftSegments.SegmentBounds(resource.capacitySegments) {
      SegmentBoundsAreEdges(resource.capacitySegments, x);
    }
  }

  lemma {:induction false} BoundsAreInspected(resources: seq<NamedResource>, x: int)
    requires x == 0 || x in DraftSegments.NamedBounds(resources)
    ensures x in ConflictWeeks(resources)
  {
    if resources == [] {
    } else {
      var last := resources[|resources| - 1];
      if x == 0 || x in DraftSegments.NamedBounds(resources[..|resources| - 1]) {
        BoundsAreInspected(resources[..|resources| - 1], x);
      } else {
        ResourceBoundsAreEdges(last, x);
      }
    }
  }

  /** The last bound at or before a week. */
  lemma {:induction false} LastBound(bounds: seq<int>, week: int) returns (x: int)
    requires week >= 0
    ensures 0 <= x <= week && (x == 0 || x in bounds)
    ensures forall y :: y in bounds && y <= week ==> y <= x
  {
    if bounds == [] {
      x := 0;
    } else {
      var last := bounds[|bounds| - 1];
      x := LastBound(bounds[..|bounds| - 1], week);
      assert bounds == bounds[..|bounds| - 1] + [last];
      if last <= week && last > x {
        x := last;
      }
    }
  }

  /** Inspecting those weeks is enough: if none of them exceeds the maximum, no week from 0 on does. */
  lemma InspectedWeeksSuffice(resources: seq<NamedResource>, cap: nat, week: int)
    requires forall w :: w in ConflictWeeks(resources) ==> !ExceedsAt(resources, cap, w)
    requires week >= 0
    ensures !ExceedsAt(resources, cap, week)
  {
    var bounds := DraftSegments.NamedBounds(resources);
    var x := LastBound(bounds, week);
    BoundsAreInspected(resources, x);
    assert DraftSegments.Unseparated(bounds, week, x);
    DraftSegments.NamedUnseparated(resources, week, x);
    assert !ExceedsAt(resources, cap, x);
  }

  predicate HasConflict(rt: ResourceType, maxCap: map<Id, nat>) {
    rt.id in maxCap && exists w :: w in ConflictWeeks(rt.namedResources) && ExceedsAt(rt.namedResources, maxCap[rt.id], w)
  }

  ghost predicate FitsMaximum(rt: ResourceType, maxCap: map<Id, nat>) {
    rt.id in maxCap ==> forall week :: week >= 0 ==> !ExceedsAt(rt.namedResources, maxCap[rt.id], week)
  }

  method FindCapConflict(resourceTypes: seq<ResourceType>, maxCap: map<Id, nat>, demanded: set<Id>) returns (conflict: bool)
    ensures conflict <==> exists k :: 0 <= k < |resourceTypes| && resourceTypes[k].id in demanded && HasConflict(resourceTypes[k], maxCap)
    ensures !conflict ==> forall k :: 0 <= k < |resourceTypes| && resourceTypes[k].id in demanded ==>
              FitsMaximum(resourceTypes[k], maxCap)
  {
    conflict := false;
    for i := 0 to |resourceTypes|
      invariant !conflict
      invariant forall k :: 0 <= k < i && resourceTypes[k].id in demanded ==>
                  !HasConflict(resourceTypes[k], maxCap) && FitsMaximum(resourceTypes[k], maxCap)
    {
      var rt := resourceTypes[i];
      if rt.id in maxCap && rt.id in demanded {
        if HasConflict(rt, maxCap) {
          return true;
        }
        forall week | week >= 0
          ensures !ExceedsAt(rt.namedResources, maxCap[rt.id], week)
        {
          InspectedWeeksSuffice(rt.namedResources, maxCap[rt.id], week);
        }
      }
    }
  }
}
