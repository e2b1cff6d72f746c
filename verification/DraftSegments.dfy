/**
 * Adapting a role's capacity profile to draft edits by sweeping the boundaries where
 * anything can change, instead of walking the weeks.
 */
module DraftSegments {
  import opened Common
  import opened Scheduler
  import opened Plan
  import DraftLocks
  import Sorting

  // ── Direct evaluation, week by week ────────────────────────────────────────

  function EditAt(edits: seq<CapacityEdit>, week: int): Option<CapacityEdit> {
    if edits == [] then None
    else if DraftLocks.IsActive(edits[0], week) then Some(edits[0])
    else EditAt(edits[1..], week)
  }

  /** The role capacity a week should have beside its named people, under the first edit active there. */
  function SyntheticAt(rt: ResourceType, edits: seq<CapacityEdit>, maxCap: Option<nat>, week: int): nat {
    var named := NamedCapacity(rt.namedResources, week);
    var profile := BaseSyntheticCapacity(rt, week);
    var edit := EditAt(edits, week);
    if edit.None? then profile
    else if edit.value.locked then
      if IsWithinRoleWindow(rt, week) then Max(0, edit.value.headcount - named) else 0
    else
      var requested := if maxCap.Some? then Min(edit.value.headcount, maxCap.value) else edit.value.headcount;
      Max(profile, requested - named)
  }

  // ── Boundaries ─────────────────────────────────────────────────────────────

  /** An inclusive window as the half-open boundaries where it starts and stops. */
  function WindowBounds(startWeek: int, endWeek: End): seq<int> {
    if endWeek.Open? then [startWeek] else [startWeek, endWeek.week + 1]
  }

  function OptionalBounds(startWeek: Option<int>, endWeek: Option<int>): seq<int> {
    WindowBounds(if startWeek.Some? then startWeek.value else 0, if endWeek.Some? then Week(endWeek.value) else Open)
  }

  function SegmentBounds(segments: seq<Segment>): seq<int> {
    if segments == [] then []
    else SegmentBounds(segments[..|segments| - 1])
         + WindowBounds(segments[|segments| - 1].startWeek, segments[|segments| - 1].endWeek)
  }

  function ResourceBounds(resource: NamedResource): seq<int> {
    OptionalBounds(resource.startWeek, resource.endWeek)
    + OptionalBounds(resource.allocationStartWeek, resource.allocationEndWeek)
    + SegmentBounds(resource.capacitySegments)
  }

  function NamedBounds(resources: seq<NamedResource>): seq<int> {
    if resources == [] then []
    else NamedBounds(resources[..|resources| - 1]) + ResourceBounds(resources[|resources| - 1])
  }

  function EditBounds(edits: seq<CapacityEdit>): seq<int> {
    if edits == [] then []
    else EditBounds(edits[..|edits| - 1]) + [edits[|edits| - 1].startWeek, edits[|edits| - 1].endWeek]
  }

  function Distinct(s: seq<int>): (r: seq<int>)
    ensures forall x :: x in r <==> x in s
    ensures NoDuplicates(r)
  {
    if s == [] then []
    else
      assert s == s[..|s| - 1] + [s[|s| - 1]];
      DraftLocks.AddOnce(Distinct(s[..|s| - 1]), s[|s| - 1])
  }

  function RawBounds(rt: ResourceType, edits: seq<CapacityEdit>): seq<int> {
    [0] + (if rt.roleSegments.Some? then SegmentBounds(rt.roleSegments.value) else [])
    + NamedBounds(rt.namedResources) + EditBounds(edits)
  }

  /** The finite boundaries in order; infinity follows the last of them. */
  function DraftBoundaries(rt: ResourceType, edits: seq<CapacityEdit>): seq<int> {
    Sorting.SortBy(Distinct(RawBounds(rt, edits)), DraftLocks.AtMostInt)
  }

  lemma DraftBoundariesAre(rt: ResourceType, edits: seq<CapacityEdit>)
    ensures DraftLocks.Increasing(DraftBoundaries(rt, edits))
    ensures forall x :: x in DraftBoundaries(rt, edits) <==> x in RawBounds(rt, edits)
    ensures DraftBoundaries(rt, edits) != [] && DraftBoundaries(rt, edits)[0] <= 0
  {
    DraftLocks.DistinctSortIncreases(Distinct(RawBounds(rt, edits)));
    var bounds := DraftBoundaries(rt, edits);
    assert 0 in RawBounds(rt, edits);
    var k :| 0 <= k < |bounds| && bounds[k] == 0;
  }

  // ── Nothing changes between boundaries ─────────────────────────────────────

  /** Two weeks that no boundary separates. */
  ghost predicate Unseparated(bounds: seq<int>, v: int, w: int) {
    forall x :: x in bounds ==> (x <= v <==> x <= w)
  }

  lemma UnseparatedParts(a: seq<int>, b: seq<int>, v: int, w: int)
    requires Unseparated(a + b, v, w)
    ensures Unseparated(a, v, w) && Unseparated(b, v, w)
  {
    forall x | x in a || x in b
      ensures x <= v <==> x <= w
    {
      assert x in a + b;
    }
  }

  lemma WindowUnseparated(startWeek: int, endWeek: End, v: int, w: int)
    requires Unseparated(WindowBounds(startWeek, endWeek), v, w)
    ensures startWeek <= v <==> startWeek <= w
    ensures Reaches(endWeek, v) <==> Reaches(endWeek, w)
  {
    assert startWeek in WindowBounds(startWeek, endWeek);
    if endWeek.Week? {
      assert endWeek.week + 1 in WindowBounds(startWeek, endWeek);
    }
  }

  lemma {:induction false} SegmentBoundsHold(segments: seq<Segment>, k: nat, x: int)
    requires k < |segments| && x in WindowBounds(segments[k].startWeek, segments[k].endWeek)
    ensures x in SegmentBounds(segments)
  {
    if k >= |segments| - 1 {
    } else {
      SegmentBoundsHold(segments[..|segments| - 1], k, x);
    }
  }

  lemma {:induction false} FirstCoveringSame(segments: seq<Segment>, v: int, w: int)
    requires forall k :: 0 <= k < |segments| ==> (Covers(segments[k], v) <==> Covers(segments[k], w))
    ensures FirstCovering(segments, v) == FirstCovering(segments, w)
  {
    if segments == [] {
    } else {
      FirstCoveringSame(segments[1..], v, w);
    }
  }

  lemma SegmentsUnseparated(segments: seq<Segment>, v: int, w: int)
    requires Unseparated(SegmentBounds(segments), v, w)
    ensures forall k :: 0 <= k < |segments| ==> (Covers(segments[k], v) <==> Covers(segments[k], w))
    ensures FirstCovering(segments, v) == FirstCovering(segments, w)
  {
    forall k | 0 <= k < |segments|
      ensures Covers(segments[k], v) <==> Covers(segments[k], w)
    {
      forall x | x in WindowBounds(segments[k].startWeek, segments[k].endWeek)
        ensures x in SegmentBounds(segments)
      {
        SegmentBoundsHold(segments, k, x);
      }
      WindowUnseparated(segments[k].startWeek, segments[k].endWeek, v, w);
    }
    FirstCoveringSame(segments, v, w);
  }

  lemma OptionalUnseparated(startWeek: Option<int>, endWeek: Option<int>, v: int, w: int)
    requires Unseparated(OptionalBounds(startWeek, endWeek), v, w)
    ensures (if startWeek.Some? then startWeek.value else 0) <= v <==> (if startWeek.Some? then startWeek.value else 0) <= w
    ensures endWeek.Some? ==> (v <= endWeek.value <==> w <= endWeek.value)
    ensures WithinOptional(startWeek, endWeek, v) <==> WithinOptional(startWeek, endWeek, w)
  {
    WindowUnseparated(if startWeek.Some? then startWeek.value else 0, if endWeek.Some? then Week(endWeek.value) else Open, v, w);
  }

  /** A person's weekly contribution is constant between the listed boundaries, in every allocation mode. */
  lemma ContributionUnseparated(resource: NamedResource, v: int, w: int)
    requires Unseparated(ResourceBounds(resource), v, w)
    ensures Contribution(resource, v) == Contribution(resource, w)
  {
    var physical := OptionalBounds(resource.startWeek, resource.endWeek);
    var allocation := OptionalBounds(resource.allocationStartWeek, resource.allocationEndWeek);
    UnseparatedParts(physical + allocation, SegmentBounds(resource.capacitySegments), v, w);
    UnseparatedParts(physical, allocation, v, w);
    OptionalUnseparated(resource.startWeek, resource.endWeek, v, w);
    OptionalUnseparated(resource.allocationStartWeek, resource.allocationEndWeek, v, w);
    SegmentsUnseparated(resource.capacitySegments, v, w);
  }

  lemma {:induction false} NamedUnseparated(resources: seq<NamedResource>, v: int, w: int)
    requires Unseparated(NamedBounds(resources), v, w)
    ensures NamedCapacity(resources, v) == NamedCapacity(resources, w)
  {
    if resources == [] {
    } else {
      UnseparatedParts(NamedBounds(resources[..|resources| - 1]), ResourceBounds(resources[|resources| - 1]), v, w);
      NamedUnseparated(resources[..|resources| - 1], v, w);
      ContributionUnseparated(resources[|resources| - 1], v, w);
    }
  }

  lemma {:induction false} EditBoundsHold(edits: seq<CapacityEdit>, k: nat)
    requires k < |edits|
    ensures edits[k].startWeek in EditBounds(edits) && edits[k].endWeek in EditBounds(edits)
  {
    if k >= |edits| - 1 {
    } else {
      EditBoundsHold(edits[..|edits| - 1], k);
    }
  }

  lemma {:induction false} EditAtSame(edits: seq<CapacityEdit>, v: int, w: int)
    requires forall k :: 0 <= k < |edits| ==> (DraftLocks.IsActive(edits[k], v) <==> DraftLocks.IsActive(edits[k], w))
    ensures EditAt(edits, v) == EditAt(edits, w)
  {
    if edits == [] {
    } else {
      EditAtSame(edits[1..], v, w);
    }
  }

  lemma EditsUnseparated(edits: seq<CapacityEdit>, v: int, w: int)
    requires Unseparated(EditBounds(edits), v, w)
    ensures EditAt(edits, v) == EditAt(edits, w)
  {
    forall k | 0 <= k < |edits|
      ensures DraftLocks.IsActive(edits[k], v) <==> DraftLocks.IsActive(edits[k], w)
    {
      EditBoundsHold(edits, k);
    }
    EditAtSame(edits, v, w);
  }

  /** The direct evaluation is constant between boundaries. */
  lemma SyntheticUnseparated(rt: ResourceType, edits: seq<CapacityEdit>, maxCap: Option<nat>, v: int, w: int)
    requires Unseparated(RawBounds(rt, edits), v, w)
    ensures SyntheticAt(rt, edits, maxCap, v) == SyntheticAt(rt, edits, maxCap, w)
  {
    var profile := if rt.roleSegments.Some? then SegmentBounds(rt.roleSegments.value) else [];
    UnseparatedParts([0] + profile + NamedBounds(rt.namedResources), EditBounds(edits), v, w);
    UnseparatedParts([0] + profile, NamedBounds(rt.namedResources), v, w);
    UnseparatedParts([0], profile, v, w);
    NamedUnseparated(rt.namedResources, v, w);
    EditsUnseparated(edits, v, w);
    if rt.roleSegments.Some? {
      SegmentsUnseparated(rt.roleSegments.value, v, w);
    }
  }

  // ── The sweep ──────────────────────────────────────────────────────────────

  function SegmentsAt(segments: seq<Segment>, week: int): nat {
    var segment := FirstCovering(segments, week);
    if segment.Some? then segment.value.percent else 0
  }

  /** Nonempty windows of positive capacity in increasing order; only the last may be open. */
  ghost predicate OrderedSegments(segments: seq<Segment>) {
    && (forall k :: 0 <= k < |segments| ==> Reaches(segments[k].endWeek, segments[k].startWeek) && segments[k].percent > 0)
    && (forall j, k :: 0 <= j < k < |segments| ==>
          segments[j].endWeek.Week? && segments[j].endWeek.week < segments[k].startWeek)
  }

  /** Touching neighbours differ in capacity. */
  ghost predicate MaximalSegments(segments: seq<Segment>) {
    forall k :: 0 < k < |segments| ==>
      segments[k - 1].endWeek == Week(segments[k].startWeek - 1) ==> segments[k - 1].percent != segments[k].percent
  }

  ghost predicate EndsBefore(segments: seq<Segment>, week: int) {
    forall k :: 0 <= k < |segments| ==> segments[k].endWeek.Week? && segments[k].endWeek.week < week
  }

  function AppendDraftCapacitySegment(segments: seq<Segment>, startWeek: int, endWeek: End, percent: nat): seq<Segment> {
    var last := |segments| - 1;
    if last >= 0 && segments[last].endWeek == Week(startWeek - 1) && segments[last].percent == percent
    then segments[..last] + [segments[last].(endWeek := endWeek)]
    else if percent > 0 then segments + [Segment(startWeek, endWeek, percent)]
    else segments
  }

  lemma {:induction false} FirstCoveringAppend(segments: seq<Segment>, segment: Segment, week: int)
    ensures FirstCovering(segments + [segment], week)
         == if FirstCovering(segments, week).Some? then FirstCovering(segments, week)
            else if Covers(segment, week) then Some(segment) else None
  {
    if segments == [] {
    } else {
      assert (segments + [segment])[1..] == segments[1..] + [segment];
      FirstCoveringAppend(segments[1..], segment, week);
    }
  }

  lemma {:induction false} NoneCovers(segments: seq<Segment>, week: int)
    requires forall k :: 0 <= k < |segments| ==> !Covers(segments[k], week)
    ensures FirstCovering(segments, week) == None
  {
    if segments == [] {
    } else {
      NoneCovers(segments[1..], week);
    }
  }

  /** One more piece: the profile gains exactly that piece's capacity on its weeks. */
  lemma AppendAt(segments: seq<Segment>, startWeek: int, endWeek: End, percent: nat, week: int)
    requires OrderedSegments(segments) && EndsBefore(segments, startWeek) && Reaches(endWeek, startWeek)
    ensures SegmentsAt(AppendDraftCapacitySegment(segments, startWeek, endWeek, percent), week)
         == if week < startWeek then SegmentsAt(segments, week) else if Reaches(endWeek, week) then percent else 0
  {
    var last := |segments| - 1;
    if week >= startWeek {
      NoneCovers(segments, week);
    }
    if last >= 0 && segments[last].endWeek == Week(startWeek - 1) && segments[last].percent == percent {
      FirstCoveringAppend(segments[..last], segments[last], week);
      assert segments[..last] + [segments[last]] == segments;
      FirstCoveringAppend(segments[..last], segments[last].(endWeek := endWeek), week);
      if week >= startWeek {
        NoneCovers(segments[..last], week);
      }
    } else {
      FirstCoveringAppend(segments, Segment(startWeek, endWeek, percent), week);
    }
  }

  lemma AppendShape(segments: seq<Segment>, startWeek: int, endWeek: End, percent: nat)
    requires OrderedSegments(segments) && MaximalSegments(segments)
    requires EndsBefore(segments, startWeek) && Reaches(endWeek, startWeek)
    ensures var appended := AppendDraftCapacitySegment(segments, startWeek, endWeek, percent);
            && OrderedSegments(appended) && MaximalSegments(appended)
            && |appended| <= |segments| + 1
            && (endWeek.Week? ==> EndsBefore(appended, endWeek.week + 1))
  {
    hide OrderedSegments, MaximalSegments;
    var last := |segments| - 1;
    if last >= 0 && segments[last].endWeek == Week(startWeek - 1) && segments[last].percent == percent {
      ExtendedOrdered(segments, startWeek, endWeek);
      ExtendedMaximal(segments, endWeek);
    } else if percent > 0 {
      PushedOrdered(segments, Segment(startWeek, endWeek, percent));
      PushedMaximal(segments, Segment(startWeek, endWeek, percent));
    }
  }

  lemma ExtendedOrdered(segments: seq<Segment>, startWeek: int, endWeek: End)
    requires segments != [] && OrderedSegments(segments) && EndsBefore(segments, startWeek) && Reaches(endWeek, startWeek)
    ensures OrderedSegments(segments[..|segments| - 1] + [segments[|segments| - 1].(endWeek := endWeek)])
  {
    var last := |segments| - 1;
    var extended := segments[..last] + [segments[last].(endWeek := endWeek)];
    assert segments[last].startWeek < startWeek;
    forall j, k | 0 <= j < k < |extended|
      ensures extended[j].endWeek.Week? && extended[j].endWeek.week < extended[k].startWeek
    {
      assert extended[j] == segments[j] && extended[k].startWeek == segments[k].startWeek;
    }
  }

  lemma ExtendedMaximal(segments: seq<Segment>, endWeek: End)
    requires segments != [] && MaximalSegments(segments)
    ensures MaximalSegments(segments[..|segments| - 1] + [segments[|segments| - 1].(endWeek := endWeek)])
  {
    var last := |segments| - 1;
    var extended := segments[..last] + [segments[last].(endWeek := endWeek)];
    forall k | 0 < k < |extended| && extended[k - 1].endWeek == Week(extended[k].startWeek - 1)
      ensures extended[k - 1].percent != extended[k].percent
    {
      assert extended[k - 1] == segments[k - 1] && extended[k].startWeek == segments[k].startWeek && extended[k].percent == segments[k].percent;
    }
  }

  lemma PushedOrdered(segments: seq<Segment>, next: Segment)
    requires OrderedSegments(segments) && EndsBefore(segments, next.startWeek) && Reaches(next.endWeek, next.startWeek) && next.percent > 0
    ensures OrderedSegments(segments + [next])
  {
    var pushed := segments + [next];
    forall j, k | 0 <= j < k < |pushed|
      ensures pushed[j].endWeek.Week? && pushed[j].endWeek.week < pushed[k].startWeek
    {
      assert pushed[j] == segments[j] && (k < |segments| ==> pushed[k] == segments[k]);
    }
  }

  lemma PushedMaximal(segments: seq<Segment>, next: Segment)
    requires MaximalSegments(segments)
    requires segments != [] && segments[|segments| - 1].endWeek == Week(next.startWeek - 1) ==>
               segments[|segments| - 1].percent != next.percent
    ensures MaximalSegments(segments + [next])
  {
    var pushed := segments + [next];
    forall k | 0 < k < |pushed| && pushed[k - 1].endWeek == Week(pushed[k].startWeek - 1)
      ensures pushed[k - 1].percent != pushed[k].percent
    {
      assert pushed[k - 1] == segments[k - 1] && (k < |segments| ==> pushed[k] == segments[k]);
    }
  }

  /** The profile swept so far: one piece per boundary before the given one, the last piece open-ended. */
  function Swept(rt: ResourceType, edits: seq<CapacityEdit>, maxCap: Option<nat>, bounds: seq<int>, n: nat): seq<Segment>
    requires n <= |bounds|
  {
    if n == 0 then []
    else
      AppendDraftCapacitySegment(Swept(rt, edits, maxCap, bounds, n - 1), bounds[n - 1],
                                 if n < |bounds| then Week(bounds[n] - 1) else Open,
                                 SyntheticAt(rt, edits, maxCap, bounds[n - 1]))
  }

  method AdaptDraftCapacitySegments(rt: ResourceType, edits: seq<CapacityEdit>, maxCap: Option<nat>) returns (segments: seq<Segment>)
    ensures segments == SweptSegments(rt, edits, maxCap)
  {
    hide SyntheticAt, DraftBoundaries, AppendDraftCapacitySegment;
    var bounds := DraftBoundaries(rt, edits);
    segments := [];
    for index := 0 to |bounds|
      invariant segments == Swept(rt, edits, maxCap, bounds, index)
    {
      var startWeek := bounds[index];
      var endWeek := if index + 1 < |bounds| then Week(bounds[index + 1] - 1) else Open;
      segments := AppendDraftCapacitySegment(segments, startWeek, endWeek, SyntheticAt(rt, edits, maxCap, startWeek));
    }
  }

  function SweptSegments(rt: ResourceType, edits: seq<CapacityEdit>, maxCap: Option<nat>): seq<Segment> {
    Swept(rt, edits, maxCap, DraftBoundaries(rt, edits), |DraftBoundaries(rt, edits)|)
  }

  lemma {:induction false} SweptShape(rt: ResourceType, edits: seq<CapacityEdit>, maxCap: Option<nat>, bounds: seq<int>, n: nat)
    requires DraftLocks.Increasing(bounds) && n <= |bounds|
    ensures var swept := Swept(rt, edits, maxCap, bounds, n);
            && OrderedSegments(swept) && MaximalSegments(swept) && |swept| <= n
            && (n < |bounds| ==> EndsBefore(swept, bounds[n]))
  {
    if n == 0 {
    } else {
      SweptShape(rt, edits, maxCap, bounds, n - 1);
      AppendShape(Swept(rt, edits, maxCap, bounds, n - 1), bounds[n - 1], if n < |bounds| then Week(bounds[n] - 1) else Open,
                  SyntheticAt(rt, edits, maxCap, bounds[n - 1]));
    }
  }

  lemma {:induction false} SweptAt(rt: ResourceType, edits: seq<CapacityEdit>, maxCap: Option<nat>, bounds: seq<int>, n: nat, week: int)
    requires bounds == DraftBoundaries(rt, edits) && 0 < n <= |bounds| && bounds[0] <= week
    requires n < |bounds| ==> week < bounds[n]
    ensures SegmentsAt(Swept(rt, edits, maxCap, bounds, n), week) == SyntheticAt(rt, edits, maxCap, week)
  {
    hide SyntheticAt, AppendDraftCapacitySegment, SegmentsAt, RawBounds, DraftBoundaries;
    DraftBoundariesAre(rt, edits);
    SweptShape(rt, edits, maxCap, bounds, n - 1);
    var endWeek := if n < |bounds| then Week(bounds[n] - 1) else Open;
    AppendAt(Swept(rt, edits, maxCap, bounds, n - 1), bounds[n - 1], endWeek, SyntheticAt(rt, edits, maxCap, bounds[n - 1]), week);
    if week >= bounds[n - 1] {
      PieceUnseparated(bounds, RawBounds(rt, edits), n - 1, week);
      SyntheticUnseparated(rt, edits, maxCap, week, bounds[n - 1]);
    } else {
      SweptAt(rt, edits, maxCap, bounds, n - 1, week);
    }
  }

  /**
   * The sweep equals the week-by-week evaluation: disjoint maximal segments, no more of them than
   * boundaries, and at every week from the first boundary on, the open tail included, the capacity
   * computed directly for that week.
   */
  lemma SweepIsPointwise(rt: ResourceType, edits: seq<CapacityEdit>, maxCap: Option<nat>)
    ensures var segments := SweptSegments(rt, edits, maxCap);
            var bounds := DraftBoundaries(rt, edits);
            && OrderedSegments(segments) && MaximalSegments(segments) && |segments| <= |bounds|
            && bounds != [] && bounds[0] <= 0
            && forall week :: bounds[0] <= week ==> SegmentsAt(segments, week) == SyntheticAt(rt, edits, maxCap, week)
  {
    var bounds := DraftBoundaries(rt, edits);
    DraftBoundariesAre(rt, edits);
    SweptShape(rt, edits, maxCap, bounds, |bounds|);
    forall week | bounds[0] <= week
      ensures SegmentsAt(SweptSegments(rt, edits, maxCap), week) == SyntheticAt(rt, edits, maxCap, week)
    {
      SweptAt(rt, edits, maxCap, bounds, |bounds|, week);
    }
  }

  lemma PieceUnseparated(bounds: seq<int>, raw: seq<int>, index: nat, week: int)
    requires DraftLocks.Increasing(bounds) && index < |bounds| && bounds[index] <= week
    requires index + 1 < |bounds| ==> week < bounds[index + 1]
    requires forall x :: x in bounds <==> x in raw
    ensures Unseparated(raw, week, bounds[index])
  {
  }

  // ── What the scheduler then sees ───────────────────────────────────────────

  ghost predicate IsAdapted(adapted: ResourceType, rt: ResourceType, edits: seq<CapacityEdit>, maxCap: Option<nat>) {
    && adapted.id == rt.id && adapted.count == rt.count && adapted.namedResources == rt.namedResources
    && adapted.roleSegments.Some?
    && OrderedSegments(adapted.roleSegments.value)
    && forall week :: week >= 0 ==> SegmentsAt(adapted.roleSegments.value, week) == SyntheticAt(rt, edits, maxCap, week)
  }

  function Adapted(rt: ResourceType, edits: seq<CapacityEdit>, maxCap: Option<nat>): ResourceType {
    rt.(roleSegments := Some(SweptSegments(rt, edits, maxCap)))
  }

  lemma AdaptedIsAdapted(rt: ResourceType, edits: seq<CapacityEdit>, maxCap: Option<nat>)
    ensures IsAdapted(Adapted(rt, edits, maxCap), rt, edits, maxCap)
  {
    SweepIsPointwise(rt, edits, maxCap);
  }

  /**
   * A locked week has exactly its locked headcount under precisely the conditions that
   * raise no diagnostic: the named people fit under the lock, and whatever they leave
   * open lies inside the role's windows.
   */
  lemma LockIsRepresented(adapted: ResourceType, rt: ResourceType, edits: seq<CapacityEdit>, maxCap: Option<nat>, week: int)
    requires IsAdapted(adapted, rt, edits, maxCap) && week >= 0
    requires EditAt(edits, week).Some? && EditAt(edits, week).value.locked
    ensures WeeklyCapacity(adapted, week) == EditAt(edits, week).value.headcount
       <==> var named := NamedCapacity(rt.namedResources, week);
            var headcount := EditAt(edits, week).value.headcount;
            named <= headcount && (IsWithinRoleWindow(rt, week) || headcount == named)
  {
    assert BaseSyntheticCapacity(adapted, week) == SegmentsAt(adapted.roleSegments.value, week);
  }

  lemma {:induction false} CoveredIffFirst(segments: seq<Segment>, week: int)
    ensures FirstCovering(segments, week).Some? <==> exists i :: 0 <= i < |segments| && Covers(segments[i], week)
    ensures FirstCovering(segments, week).Some? ==> FirstCovering(segments, week).value in segments
  {
    if segments == [] {
    } else {
      CoveredIffFirst(segments[1..], week);
      if exists i :: 0 <= i < |segments| && Covers(segments[i], week) {
        var i :| 0 <= i < |segments| && Covers(segments[i], week);
        assert i > 0 ==> segments[1..][i - 1] == segments[i];
      }
      if FirstCovering(segments[1..], week).Some? {
        var i :| 0 <= i < |segments[1..]| && Covers(segments[1..][i], week);
        assert Covers(segments[i + 1], week);
      }
    }
  }

  /** Restoring locks over a profile already adapted to them changes no week. */
  lemma RestoreIsIdempotent(adapted: ResourceType, rt: ResourceType, locks: seq<CapacityEdit>, maxCap: Option<nat>, week: int)
    requires IsAdapted(adapted, rt, locks, maxCap) && week >= 0
    requires forall i :: 0 <= i < |locks| ==> locks[i].locked
    ensures SyntheticAt(adapted, locks, maxCap, week) == SyntheticAt(rt, locks, maxCap, week)
  {
    CoveredIffFirst(adapted.roleSegments.value, week);
    EditAtLocked(locks, week);
    if EditAt(locks, week).Some? && !IsWithinRoleWindow(adapted, week) {
      assert SegmentsAt(adapted.roleSegments.value, week) == 0;
    }
  }

  lemma {:induction false} EditAtLocked(locks: seq<CapacityEdit>, week: int)
    requires forall i :: 0 <= i < |locks| ==> locks[i].locked
    ensures EditAt(locks, week).Some? ==> EditAt(locks, week).value.locked
  {
    if locks == [] {
    } else {
      EditAtLocked(locks[1..], week);
    }
  }
}
