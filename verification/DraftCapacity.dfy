/**
 * Draft edits applied to whole resource type lists: seeding them before planning, restoring
 * locks after growth or replay, and the diagnostics that say when a lock cannot be honoured.
 */
module DraftCapacity {
  import opened Common
  import opened Scheduler
  import opened Publication
  import opened Plan
  import opened DraftSegments
  import DraftLocks
  import Replay
  import ReplayPlan

  function EditsFor(edits: seq<CapacityEdit>, roleId: Id): seq<CapacityEdit> {
    if edits == [] then []
    else (if edits[0].roleId == roleId then [edits[0]] else []) + EditsFor(edits[1..], roleId)
  }

  function LockedEdits(edits: seq<CapacityEdit>): seq<CapacityEdit> {
    if edits == [] then []
    else (if edits[0].locked then [edits[0]] else []) + LockedEdits(edits[1..])
  }

  lemma {:induction false} EditsForAre(edits: seq<CapacityEdit>, roleId: Id)
    ensures forall e :: e in EditsFor(edits, roleId) <==> e in edits && e.roleId == roleId
  {
    if edits == [] {
    } else {
      EditsForAre(edits[1..], roleId);
      assert edits == [edits[0]] + edits[1..];
    }
  }

  lemma {:induction false} LockedEditsAre(edits: seq<CapacityEdit>)
    ensures forall e :: e in LockedEdits(edits) <==> e in edits && e.locked
  {
    if edits == [] {
    } else {
      LockedEditsAre(edits[1..]);
      assert edits == [edits[0]] + edits[1..];
    }
  }

  function CapOf(maxCap: map<Id, nat>, roleId: Id): Option<nat> {
    if roleId in maxCap then Some(maxCap[roleId]) else None
  }

  function Requested(edit: CapacityEdit, cap: Option<nat>): nat {
    if cap.Some? then Min(edit.headcount, cap.value) else edit.headcount
  }

  function SeedCount(count: nat, edits: seq<CapacityEdit>, cap: Option<nat>): nat
    decreases edits
  {
    if edits == [] then count
    else
      SeedCount(Max(count, Requested(edits[0], cap)), edits[1..], cap)
  }

  /** Unlocked edits of a role without a profile raise its count; all others become a profile. */
  function SeededRole(rt: ResourceType, edits: seq<CapacityEdit>, cap: Option<nat>): ResourceType {
    if edits == [] then rt
    else if LockedEdits(edits) == [] && rt.roleSegments.None? then rt.(count := SeedCount(rt.count, edits, cap))
    else Adapted(rt, edits, cap)
  }

  /** The seeded count is the greatest of the role's own and what its edits ask for within the maximum. */
  lemma {:induction false} SeedCountIsGreatest(count: nat, edits: seq<CapacityEdit>, cap: Option<nat>)
    ensures var seeded := SeedCount(count, edits, cap);
            && count <= seeded && (forall e :: e in edits ==> Requested(e, cap) <= seeded)
            && (seeded == count || exists e :: e in edits && seeded == Requested(e, cap))
            && (cap.Some? ==> seeded <= Max(count, cap.value))
    decreases edits
  {
    if edits == [] {
    } else {
      SeedCountIsGreatest(Max(count, Requested(edits[0], cap)), edits[1..], cap);
      assert edits == [edits[0]] + edits[1..];
    }
  }

  /**
   * What seeding makes of a week. A week without a lock never loses capacity. A role whose edits become a
   * profile has in such a week exactly the greater of what it had and what the edit there asks for; a role
   * whose edits raise its count has the seeded count less its people on top of them, in every week alike.
   */
  lemma SeededWeek(rt: ResourceType, edits: seq<CapacityEdit>, cap: Option<nat>, week: int)
    requires week >= 0 && (EditAt(edits, week).Some? ==> !EditAt(edits, week).value.locked)
    ensures var before := WeeklyCapacity(rt, week); var after := WeeklyCapacity(SeededRole(rt, edits, cap), week);
            && before <= after
            && (edits == [] ==> after == before)
            && (LockedEdits(edits) != [] || rt.roleSegments.Some? ==>
                  after == if EditAt(edits, week).Some? then Max(before, Requested(EditAt(edits, week).value, cap)) else before)
            && (edits != [] && LockedEdits(edits) == [] && rt.roleSegments.None? ==>
                  after == NamedCapacity(rt.namedResources, week) + Max(0, SeedCount(rt.count, edits, cap) - 100 * |rt.namedResources|))
  {
    hide SweptSegments;
    if edits == [] {
      assert EditAt(edits, week).None?;
    } else if LockedEdits(edits) == [] && rt.roleSegments.None? {
      SeedCountIsGreatest(rt.count, edits, cap);
    } else {
      var adapted := Adapted(rt, edits, cap);
      AdaptedIsAdapted(rt, edits, cap);
      assert BaseSyntheticCapacity(adapted, week) == SegmentsAt(adapted.roleSegments.value, week);
    }
  }

  function Seeded(resourceTypes: seq<ResourceType>, edits: seq<CapacityEdit>, maxCap: map<Id, nat>): (r: seq<ResourceType>)
    ensures |r| == |resourceTypes|
  {
    seq(|resourceTypes|, k requires 0 <= k < |resourceTypes| =>
      SeededRole(resourceTypes[k], EditsFor(edits, resourceTypes[k].id), CapOf(maxCap, resourceTypes[k].id)))
  }

  method ApplyDraftCapacitySeeds(resourceTypes: seq<ResourceType>, edits: seq<CapacityEdit>, maxCap: map<Id, nat>)
    returns (seeded: seq<ResourceType>)
    ensures seeded == Seeded(resourceTypes, edits, maxCap)
  {
    hide SweptSegments, EditsFor, LockedEdits, SeedCount;
    seeded := [];
    for k := 0 to |resourceTypes|
      invariant |seeded| == k
      invariant forall j :: 0 <= j < k ==> seeded[j] == Seeded(resourceTypes, edits, maxCap)[j]
    {
      var rt := resourceTypes[k];
      var own := EditsFor(edits, rt.id);
      var cap := CapOf(maxCap, rt.id);
      if own == [] || (LockedEdits(own) == [] && rt.roleSegments.None?) {
        seeded := seeded + [SeededRole(rt, own, cap)];
      } else {
        var segments := AdaptDraftCapacitySegments(rt, own, cap);
        seeded := seeded + [rt.(roleSegments := Some(segments))];
      }
    }
  }

  function RestoredRole(rt: ResourceType, locks: seq<CapacityEdit>): ResourceType {
    if locks == [] then rt else Adapted(rt, locks, None)
  }

  function Restored(resourceTypes: seq<ResourceType>, locks: seq<CapacityEdit>): (r: seq<ResourceType>)
    ensures |r| == |resourceTypes|
  {
    seq(|resourceTypes|, k requires 0 <= k < |resourceTypes| =>
      RestoredRole(resourceTypes[k], EditsFor(locks, resourceTypes[k].id)))
  }

  method RestoreDraftLockedCapacity(resourceTypes: seq<ResourceType>, edits: seq<CapacityEdit>)
    returns (restored: seq<ResourceType>)
    ensures restored == Restored(resourceTypes, LockedEdits(edits))
  {
    hide SweptSegments, EditsFor, LockedEdits;
    var locked := LockedEdits(edits);
    restored := [];
    for k := 0 to |resourceTypes|
      invariant |restored| == k
      invariant forall j :: 0 <= j < k ==> restored[j] == Restored(resourceTypes, locked)[j]
    {
      var rt := resourceTypes[k];
      var own := EditsFor(locked, rt.id);
      if own == [] {
        restored := restored + [rt];
      } else {
        var segments := AdaptDraftCapacitySegments(rt, own, None);
        restored := restored + [rt.(roleSegments := Some(segments))];
      }
    }
  }

  // ── When a lock can be honoured ────────────────────────────────────────────

  /** The people fit under the lock, and what they leave open lies inside the role's windows. */
  predicate LockFits(rt: ResourceType, edits: seq<CapacityEdit>, week: int) {
    var edit := EditAt(edits, week);
    edit.Some? && edit.value.locked ==>
      var named := NamedCapacity(rt.namedResources, week);
      named <= edit.value.headcount && (IsWithinRoleWindow(rt, week) || edit.value.headcount <= named)
  }

  predicate WithinMaximum(edits: seq<CapacityEdit>, cap: Option<nat>) {
    cap.Some? ==> forall e :: e in edits && e.locked ==> e.headcount <= cap.value
  }

  datatype DraftDiagnostic = AboveMaximum | BelowNamed(week: int) | OutsideWindow(week: int) | BelowFloor

  ghost predicate FitsAt(rt: ResourceType, edits: seq<CapacityEdit>, weeks: seq<int>) {
    forall k :: 0 <= k < |weeks| ==> LockFits(rt, edits, weeks[k])
  }

  method AdaptDiagnostics(rt: ResourceType, edits: seq<CapacityEdit>, cap: Option<nat>) returns (diagnostics: seq<DraftDiagnostic>)
    ensures diagnostics == [] <==> RoleIsClean(rt, edits, cap)
  {
    var above := MaximumDiagnostics(edits, cap);
    var pieces := PiecesDiagnostics(rt, edits, DraftBoundaries(rt, edits));
    diagnostics := above + pieces;
  }

  method MaximumDiagnostics(edits: seq<CapacityEdit>, cap: Option<nat>) returns (diagnostics: seq<DraftDiagnostic>)
    ensures diagnostics == [] <==> WithinMaximum(edits, cap)
  {
    diagnostics := [];
    for i := 0 to |edits|
      invariant diagnostics == [] <==> WithinMaximum(edits[..i], cap)
    {
      assert edits[..i + 1] == edits[..i] + [edits[i]];
      if edits[i].locked && cap.Some? && edits[i].headcount > cap.value {
        assert edits[i] in edits[..i + 1];
        diagnostics := diagnostics + [AboveMaximum];
      }
    }
    assert edits[..|edits|] == edits;
  }

  method PiecesDiagnostics(rt: ResourceType, edits: seq<CapacityEdit>, bounds: seq<int>) returns (diagnostics: seq<DraftDiagnostic>)
    ensures diagnostics == [] <==> FitsAt(rt, edits, bounds)
  {
    hide LockFits;
    diagnostics := [];
    for k := 0 to |bounds|
      invariant diagnostics == [] <==> forall j :: 0 <= j < k ==> LockFits(rt, edits, bounds[j])
    {
      var found := PieceDiagnostics(rt, edits, bounds[k]);
      diagnostics := diagnostics + found;
    }
  }

  method PieceDiagnostics(rt: ResourceType, edits: seq<CapacityEdit>, week: int) returns (diagnostics: seq<DraftDiagnostic>)
    ensures diagnostics == [] <==> LockFits(rt, edits, week)
  {
    diagnostics := [];
    var edit := EditAt(edits, week);
    if edit.None? || !edit.value.locked {
      return;
    }
    var named := NamedCapacityFte(rt, week);
    if edit.value.headcount < named {
      diagnostics := diagnostics + [BelowNamed(week)];
    }
    if !IsWithinRoleWindow(rt, week) && edit.value.headcount > named {
      diagnostics := diagnostics + [OutsideWindow(week)];
    }
  }

  lemma WindowSame(rt: ResourceType, v: int, w: int)
    requires rt.roleSegments.Some? ==> Unseparated(SegmentBounds(rt.roleSegments.value), v, w)
    ensures IsWithinRoleWindow(rt, v) <==> IsWithinRoleWindow(rt, w)
  {
    if rt.roleSegments.Some? {
      SegmentsUnseparated(rt.roleSegments.value, v, w);
      CoveredIffFirst(rt.roleSegments.value, v);
      CoveredIffFirst(rt.roleSegments.value, w);
    }
  }

  lemma FitsUnseparated(rt: ResourceType, edits: seq<CapacityEdit>, v: int, w: int)
    requires Unseparated(RawBounds(rt, edits), v, w)
    ensures LockFits(rt, edits, v) <==> LockFits(rt, edits, w)
  {
    var profile := if rt.roleSegments.Some? then SegmentBounds(rt.roleSegments.value) else [];
    UnseparatedParts([0] + profile + NamedBounds(rt.namedResources), EditBounds(edits), v, w);
    UnseparatedParts([0] + profile, NamedBounds(rt.namedResources), v, w);
    UnseparatedParts([0], profile, v, w);
    NamedUnseparated(rt.namedResources, v, w);
    EditsUnseparated(edits, v, w);
    WindowSame(rt, v, w);
  }

  /** Checking the boundaries checks every week. */
  lemma FitsAtEveryWeek(rt: ResourceType, edits: seq<CapacityEdit>)
    ensures FitsAt(rt, edits, DraftBoundaries(rt, edits))
       <==> forall week :: week >= DraftBoundaries(rt, edits)[0] ==> LockFits(rt, edits, week)
    ensures DraftBoundaries(rt, edits) != [] && DraftBoundaries(rt, edits)[0] <= 0
  {
    var bounds := DraftBoundaries(rt, edits);
    DraftBoundariesAre(rt, edits);
    forall week | week >= bounds[0]
      ensures exists k :: 0 <= k < |bounds| && (LockFits(rt, edits, week) <==> LockFits(rt, edits, bounds[k]))
    {
      var k := PieceOf(bounds, |bounds|, week);
      PieceUnseparated(bounds, RawBounds(rt, edits), k, week);
      FitsUnseparated(rt, edits, week, bounds[k]);
    }
  }

  lemma {:induction false} PieceOf(bounds: seq<int>, n: nat, week: int) returns (k: nat)
    requires DraftLocks.Increasing(bounds) && 0 < n <= |bounds| && bounds[0] <= week
    requires n < |bounds| ==> week < bounds[n]
    ensures k < n && bounds[k] <= week && (k + 1 < |bounds| ==> week < bounds[k + 1])
  {
    k := n - 1;
    if week < bounds[k] {
      k := PieceOf(bounds, n - 1, week);
    }
  }

  /** No diagnostic of the seeding: every lock within its maximum and representable in every week from week 0 on. */
  ghost predicate RoleIsClean(rt: ResourceType, edits: seq<CapacityEdit>, cap: Option<nat>) {
    WithinMaximum(edits, cap) && FitsAt(rt, edits, DraftBoundaries(rt, edits))
  }

  ghost predicate DraftIsClean(resourceTypes: seq<ResourceType>, edits: seq<CapacityEdit>, maxCap: map<Id, nat>, minFloor: map<Id, nat>) {
    && (forall k :: 0 <= k < |resourceTypes| ==>
          RoleIsClean(resourceTypes[k], EditsFor(edits, resourceTypes[k].id), CapOf(maxCap, resourceTypes[k].id)))
    && FloorsRespected(edits, minFloor)
  }

  predicate RespectsFloor(edit: CapacityEdit, minFloor: map<Id, nat>) {
    edit.locked && edit.roleId in minFloor ==> edit.headcount >= minFloor[edit.roleId]
  }

  predicate FloorsRespected(edits: seq<CapacityEdit>, minFloor: map<Id, nat>) {
    forall e :: e in edits ==> RespectsFloor(e, minFloor)
  }

  lemma {:induction false} NoLocksFit(edits: seq<CapacityEdit>, week: int)
    requires LockedEdits(edits) == []
    ensures EditAt(edits, week).Some? ==> !EditAt(edits, week).value.locked
  {
    if edits == [] {
    } else {
      NoLocksFit(edits[1..], week);
    }
  }

  /** All diagnostics that the draft itself raises, before any planning. */
  method DraftDiagnostics(resourceTypes: seq<ResourceType>, edits: seq<CapacityEdit>, maxCap: map<Id, nat>, minFloor: map<Id, nat>)
    returns (diagnostics: seq<DraftDiagnostic>)
    ensures diagnostics == [] <==> DraftIsClean(resourceTypes, edits, maxCap, minFloor)
  {
    hide RoleIsClean, Adapted, EditsFor;
    var floors := FloorDiagnostics(edits, minFloor);
    diagnostics := [];
    for k := 0 to |resourceTypes|
      invariant diagnostics == [] <==> forall j :: 0 <= j < k ==>
                  RoleIsClean(resourceTypes[j], EditsFor(edits, resourceTypes[j].id), CapOf(maxCap, resourceTypes[j].id))
    {
      var rt := resourceTypes[k];
      var own := EditsFor(edits, rt.id);
      var cap := CapOf(maxCap, rt.id);
      if own == [] || (LockedEdits(own) == [] && rt.roleSegments.None?) {
        NothingLocked(rt, own, cap);
      } else {
        var found := AdaptDiagnostics(rt, own, cap);
        diagnostics := diagnostics + found;
      }
    }
    diagnostics := floors + diagnostics;
  }

  method FloorDiagnostics(edits: seq<CapacityEdit>, minFloor: map<Id, nat>) returns (diagnostics: seq<DraftDiagnostic>)
    ensures diagnostics == [] <==> FloorsRespected(edits, minFloor)
  {
    diagnostics := [];
    for i := 0 to |edits|
      invariant diagnostics == [] <==> FloorsRespected(edits[..i], minFloor)
    {
      assert edits[..i + 1] == edits[..i] + [edits[i]];
      if !RespectsFloor(edits[i], minFloor) {
        assert edits[i] in edits[..i + 1];
        diagnostics := diagnostics + [BelowFloor];
      }
    }
    assert edits[..|edits|] == edits;
  }

  lemma NothingLocked(rt: ResourceType, edits: seq<CapacityEdit>, cap: Option<nat>)
    requires LockedEdits(edits) == []
    ensures RoleIsClean(rt, edits, cap)
  {
    LockedEditsAre(edits);
    forall k | 0 <= k < |DraftBoundaries(rt, edits)|
      ensures LockFits(rt, edits, DraftBoundaries(rt, edits)[k])
    {
      NoLocksFit(edits, DraftBoundaries(rt, edits)[k]);
    }
  }

  // ── What the scheduler sees of a locked week ───────────────────────────────

  /** No two edits of a role share a week. */
  ghost predicate EditsApart(edits: seq<CapacityEdit>) {
    forall a, b, week ::
      a in edits && b in edits && a.roleId == b.roleId && DraftLocks.IsActive(a, week) && DraftLocks.IsActive(b, week) ==>
        a == b
  }

  lemma {:induction false} EditAtIs(edits: seq<CapacityEdit>, week: int)
    ensures EditAt(edits, week).Some? ==> EditAt(edits, week).value in edits && DraftLocks.IsActive(EditAt(edits, week).value, week)
    ensures EditAt(edits, week).None? ==> forall e :: e in edits ==> !DraftLocks.IsActive(e, week)
  {
    if edits == [] {
    } else {
      EditAtIs(edits[1..], week);
    }
  }

  /** With edits apart, a lock active in a week is the edit every view of the draft finds there. */
  lemma TheActiveEdit(edits: seq<CapacityEdit>, lock: CapacityEdit, week: int)
    requires EditsApart(edits) && lock in edits && lock.locked && DraftLocks.IsActive(lock, week)
    ensures EditAt(EditsFor(edits, lock.roleId), week) == Some(lock)
    ensures EditAt(EditsFor(LockedEdits(edits), lock.roleId), week) == Some(lock)
  {
    var own, locked := EditsFor(edits, lock.roleId), EditsFor(LockedEdits(edits), lock.roleId);
    EditsForAre(edits, lock.roleId);
    LockedEditsAre(edits);
    EditsForAre(LockedEdits(edits), lock.roleId);
    EditAtIs(own, week);
    EditAtIs(locked, week);
    assert lock in own && lock in locked;
  }

  /**
   * A locked week of a clean draft: seed the role, publish the locked headcount, rebuild the people
   * and restore the locks, and the scheduler sees exactly the locked headcount.
   */
  lemma LockedWeekIsStaffed(rt: ResourceType, edits: seq<CapacityEdit>, cap: Option<nat>, replayed: ResourceType,
                            lock: CapacityEdit, week: int)
    requires EditsApart(edits) && lock in edits && lock.locked && DraftLocks.IsActive(lock, week) && week >= 0
    requires rt.id == lock.roleId && RoleIsClean(rt, EditsFor(edits, rt.id), cap)
    requires replayed.roleSegments == (if SeededRole(rt, EditsFor(edits, rt.id), cap).roleSegments == Some([]) then Some([]) else None)
    requires NamedCapacity(replayed.namedResources, week)
          == Published(SeededRole(rt, EditsFor(edits, rt.id), cap), lock.headcount, week)
    ensures WeeklyCapacity(RestoredRole(replayed, EditsFor(LockedEdits(edits), rt.id)), week) == lock.headcount
  {
    hide DraftBoundaries, Swept, SweptSegments, OrderedSegments;
    var own, locks := EditsFor(edits, rt.id), EditsFor(LockedEdits(edits), rt.id);
    TheActiveEdit(edits, lock, week);
    FitsAtEveryWeek(rt, own);
    assert LockFits(rt, own, week);
    EditAtIs(locks, week);
    EditAtIs(own, week);
    LockedEditsAre(own);
    AdaptedIsAdapted(rt, own, cap);
    AdaptedIsAdapted(replayed, locks, None);
    LockIsRepresented(Adapted(replayed, locks, None), replayed, locks, None, week);
    SeededLockWindow(rt, own, cap, week);
  }

  /** Inside a lock, a seeded profile has a window exactly where it has something to add to the people. */
  lemma SeededLockWindow(rt: ResourceType, edits: seq<CapacityEdit>, cap: Option<nat>, week: int)
    requires EditAt(edits, week).Some? && EditAt(edits, week).value.locked && LockFits(rt, edits, week) && week >= 0
    ensures var seeded := Adapted(rt, edits, cap);
            var named := NamedCapacity(rt.namedResources, week);
            && (IsWithinRoleWindow(seeded, week) ==> seeded.roleSegments.value != [])
            && (!IsWithinRoleWindow(seeded, week) ==> EditAt(edits, week).value.headcount == named)
  {
    hide DraftBoundaries, Swept, SweptSegments;
    AdaptedIsAdapted(rt, edits, cap);
    var profile := Adapted(rt, edits, cap).roleSegments.value;
    CoveredIffFirst(profile, week);
    assert SegmentsAt(profile, week) == SyntheticAt(rt, edits, cap, week);
  }
}
