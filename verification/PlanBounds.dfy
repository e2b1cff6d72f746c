/**
 * Between its people and its maximum: what publishing, draft locks, splitting, reduction and repricing keep
 * true of every headcount of a plan, week by week.
 */
module PlanBounds {
  import opened Common
  import opened Scheduler
  import opened Publication
  import opened Plan
  import opened Growth
  import opened Reduction
  import opened DraftCapacity
  import DraftLocks
  import Envelope
  import EnvelopeOutput

  predicate AtLeastNamed(headcount: nat, roles: seq<ResourceType>, roleId: Id, week: int) {
    var rt := Envelope.FindResourceType(roles, roleId);
    rt.Some? && NamedCapacity(rt.value.namedResources, week) <= headcount
  }

  /** At most the maximum, or what the named people themselves supply in some week. */
  ghost predicate AtMostMaximum(headcount: nat, roles: seq<ResourceType>, roleId: Id, maximum: nat) {
    var rt := Envelope.FindResourceType(roles, roleId);
    headcount <= maximum || (rt.Some? && exists week :: week >= 0 && headcount <= NamedCapacity(rt.value.namedResources, week))
  }

  /** No week's headcount is less than what the role's people supply in it. */
  ghost predicate StaffsNamed(periods: seq<Period>, roles: seq<ResourceType>) {
    forall roleId, week :: week >= 0 && HeadcountAt(periods, roleId, week).Some? ==>
      AtLeastNamed(HeadcountAt(periods, roleId, week).value, roles, roleId, week)
  }

  /** No headcount exceeds its role's maximum, named people excepted. */
  ghost predicate WithinMaximums(periods: seq<Period>, roles: seq<ResourceType>, maxCap: map<Id, nat>) {
    forall roleId, week :: roleId in maxCap && HeadcountAt(periods, roleId, week).Some? ==>
      AtMostMaximum(HeadcountAt(periods, roleId, week).value, roles, roleId, maxCap[roleId])
  }

  ghost predicate LocksWithin(locks: seq<CapacityEdit>, maxCap: map<Id, nat>) {
    forall e :: e in locks && e.roleId in maxCap ==> e.headcount <= maxCap[e.roleId]
  }

  ghost predicate LocksStaff(locks: seq<CapacityEdit>, roles: seq<ResourceType>) {
    forall e, week :: e in locks && DraftLocks.IsActive(e, week) && week >= 0 ==> AtLeastNamed(e.headcount, roles, e.roleId, week)
  }

  // ── Publication ────────────────────────────────────────────────────────────

  lemma LessIsWithin(a: nat, b: nat, roles: seq<ResourceType>, roleId: Id, maximum: nat)
    requires a <= b && AtMostMaximum(b, roles, roleId, maximum)
    ensures AtMostMaximum(a, roles, roleId, maximum)
  {
  }

  lemma MaxIsWithin(a: nat, b: nat, roles: seq<ResourceType>, roleId: Id, maximum: nat)
    requires AtMostMaximum(a, roles, roleId, maximum) && AtMostMaximum(b, roles, roleId, maximum)
    ensures AtMostMaximum(Max(a, b), roles, roleId, maximum)
  {
  }

  lemma {:induction false} LockedIsWithin(base: nat, locks: seq<CapacityEdit>, roles: seq<ResourceType>, roleId: Id, period: nat,
                                          periodWeeks: nat, outputWeeks: nat, maxCap: map<Id, nat>)
    requires periodWeeks > 0 && roleId in maxCap && LocksWithin(locks, maxCap) && AtMostMaximum(base, roles, roleId, maxCap[roleId])
    ensures AtMostMaximum(EnvelopeOutput.LockedAt(base, locks, roleId, period, periodWeeks, outputWeeks), roles, roleId, maxCap[roleId])
  {
    hide AtMostMaximum, EnvelopeOutput.LockTouches;
    if locks == [] {
    } else {
      var last := |locks| - 1;
      assert forall e :: e in locks[..last] ==> e in locks;
      assert locks[last] in locks;
      LockedIsWithin(base, locks[..last], roles, roleId, period, periodWeeks, outputWeeks, maxCap);
      if EnvelopeOutput.LockTouches(locks[last], roleId, period, periodWeeks, outputWeeks) {
        LockIsWithin(locks[last], roles, roleId, period, periodWeeks, outputWeeks, maxCap);
        MaxIsWithin(EnvelopeOutput.LockedAt(base, locks[..last], roleId, period, periodWeeks, outputWeeks), locks[last].headcount,
                    roles, roleId, maxCap[roleId]);
      }
    }
  }

  lemma LockIsWithin(lock: CapacityEdit, roles: seq<ResourceType>, roleId: Id, period: nat, periodWeeks: nat, outputWeeks: nat,
                     maxCap: map<Id, nat>)
    requires EnvelopeOutput.LockTouches(lock, roleId, period, periodWeeks, outputWeeks)
    requires roleId in maxCap && LocksWithin([lock], maxCap)
    ensures AtMostMaximum(lock.headcount, roles, roleId, maxCap[roleId])
  {
    assert lock in [lock];
  }

  lemma PublishedIsWithin(rt: ResourceType, headcount: nat, roles: seq<ResourceType>, roleId: Id, week: nat, maximum: nat)
    requires Envelope.FindResourceType(roles, roleId) == Some(rt) && AtMostMaximum(headcount, roles, roleId, maximum)
    ensures AtMostMaximum(Published(rt, headcount, week), roles, roleId, maximum)
  {
    hide Published;
    var named := NamedCapacity(rt.namedResources, week);
    assert AtMostMaximum(named, roles, roleId, maximum);
    MaxIsWithin(headcount, named, roles, roleId, maximum);
    assert Published(rt, headcount, week) == named || Published(rt, headcount, week) == Max(headcount, named) by {
      PublishedEither(rt, headcount, week);
    }
  }

  lemma PublishedEither(rt: ResourceType, headcount: nat, week: int)
    ensures var named := NamedCapacity(rt.namedResources, week);
            Published(rt, headcount, week) == named || Published(rt, headcount, week) == Max(headcount, named)
  {
  }

  /** A role's envelope is within its maximum, its people excepted. */
  lemma EnvelopeIsWithin(row: seq<int>, roles: seq<ResourceType>, roleId: Id, peaks: seq<real>, avgs: seq<real>,
                         config: Envelope.EnvelopeConfig, buffer: real, totalWeeks: nat, periodWeeks: nat, p: nat)
    requires periodWeeks > 0 && |peaks| == |avgs| == Envelope.PeriodCount(totalWeeks, periodWeeks) && roleId in config.maxCap
    requires Envelope.IsEnvelope(row, Envelope.RoleInputs(roles, totalWeeks, periodWeeks, peaks, avgs, config, roleId),
                                 config, buffer, totalWeeks, periodWeeks)
    requires p < |row|
    ensures AtMostMaximum(Max(0, row[p]), roles, roleId, config.maxCap[roleId])
  {
    hide Envelope.IsEnvelope, Envelope.Need;
    var input := Envelope.RoleInputs(roles, totalWeeks, periodWeeks, peaks, avgs, config, roleId);
    Envelope.EnvelopeSandwich(row, input, config, buffer, totalWeeks, periodWeeks, p);
    var rt := Envelope.FindResourceType(roles, roleId);
    var stop := Envelope.PeriodEnd(p, totalWeeks, periodWeeks);
    if rt.Some? && p * periodWeeks <= stop {
      Envelope.PeakNamedIsPeak(rt.value.namedResources, p * periodWeeks, stop);
    }
  }

  // ── Splitting at locks ─────────────────────────────────────────────────────

  lemma {:induction false} GoverningIs(locks: seq<CapacityEdit>, roleId: Id, week: int)
    ensures var governing := DraftLocks.GoverningLock(locks, roleId, week);
            && (governing.Some? ==> governing.value in locks && governing.value.roleId == roleId
                                    && DraftLocks.IsActive(governing.value, week))
            && (governing.None? ==> forall e :: e in locks && e.roleId == roleId ==> !DraftLocks.IsActive(e, week))
  {
    if locks == [] {
    } else {
      GoverningIs(locks[1..], roleId, week);
    }
  }

  lemma SplitFits(periods: seq<Period>, locks: seq<CapacityEdit>, dayRates: map<Id, nat>, roles: seq<ResourceType>, maxCap: map<Id, nat>)
    requires Ordered(periods) && DraftLocks.ValidLocks(locks)
    ensures LocksWithin(locks, maxCap) && WithinMaximums(periods, roles, maxCap) ==>
              WithinMaximums(DraftLocks.Split(periods, locks, dayRates), roles, maxCap)
    ensures LocksStaff(locks, roles) && StaffsNamed(periods, roles) ==>
              StaffsNamed(DraftLocks.Split(periods, locks, dayRates), roles)
  {
    hide HeadcountAt, AtLeastNamed, DraftLocks.GoverningLock, DraftLocks.Split;
    forall roleId, week
      ensures var governing := DraftLocks.GoverningLock(locks, roleId, week);
              && (governing.Some? ==> governing.value in locks && governing.value.roleId == roleId
                                      && DraftLocks.IsActive(governing.value, week))
              && HeadcountAt(DraftLocks.Split(periods, locks, dayRates), roleId, week)
                 == if governing.Some? then Some(governing.value.headcount) else HeadcountAt(periods, roleId, week)
    {
      GoverningIs(locks, roleId, week);
      DraftLocks.SplitHeadcount(periods, locks, dayRates, roleId, week);
    }
  }

  // ── Reduction ──────────────────────────────────────────────────────────────

  /** Where a plan speaks of a role in a week, every plan of the same shape speaks from the same slot. */
  lemma {:induction false} SlotOf(a: seq<Period>, b: seq<Period>, roleId: Id, week: int) returns (i: nat, j: nat)
    requires SameShape(b, a) && HeadcountAt(a, roleId, week).Some?
    ensures Slot(a, i, j) && Spans(a[i], week) && a[i].resources[j].roleId == roleId
    ensures HeadcountAt(a, roleId, week) == Some(SlotHeadcount(a, i, j))
    ensures HeadcountAt(b, roleId, week) == Some(SlotHeadcount(b, i, j))
  {
    if Spans(a[0], week) {
      i := 0;
      j := RoleOf(a[0].resources, b[0].resources, roleId);
    } else {
      var k;
      assert SameShape(b[1..], a[1..]);
      k, j := SlotOf(a[1..], b[1..], roleId, week);
      i := k + 1;
    }
  }

  lemma {:induction false} RoleOf(a: seq<RoleHeadcount>, b: seq<RoleHeadcount>, roleId: Id) returns (j: nat)
    requires |a| == |b| && (forall k :: 0 <= k < |a| ==> a[k].roleId == b[k].roleId) && FindRole(a, roleId).Some?
    ensures j < |a| && a[j].roleId == roleId && FindRole(a, roleId) == Some(a[j]) && FindRole(b, roleId) == Some(b[j])
  {
    if a[0].roleId == roleId {
      j := 0;
    } else {
      var k := RoleOf(a[1..], b[1..], roleId);
      j := k + 1;
    }
  }

  lemma {:induction false} SpeaksAlike(a: seq<Period>, b: seq<Period>, roleId: Id, week: int)
    requires SameShape(a, b)
    ensures HeadcountAt(a, roleId, week).Some? <==> HeadcountAt(b, roleId, week).Some?
  {
    if HeadcountAt(a, roleId, week).Some? {
      var i, j := SlotOf(a, b, roleId, week);
    } else if HeadcountAt(b, roleId, week).Some? {
      var i, j := SlotOf(b, a, roleId, week);
    }
  }

  /** A committed removal leaves a week's headcount alone, or lowers it no further than its people. */
  lemma CommitFits(context: Context, before: seq<Period>, after: seq<Period>, maxCap: map<Id, nat>)
    requires UniqueSlots(before) && IsCommit(context, before, after)
    ensures SameShape(after, before)
    ensures WithinMaximums(before, context.resourceTypes, maxCap) ==> WithinMaximums(after, context.resourceTypes, maxCap)
    ensures StaffsNamed(before, context.resourceTypes) ==> StaffsNamed(after, context.resourceTypes)
  {
    hide HeadcountAt, AtLeastNamed, AtMostMaximum;
    var i: nat, j: nat :| Slot(before, i, j) && CommitAt(context, before, after, i, j);
    forall roleId, week | HeadcountAt(after, roleId, week).Some?
      ensures HeadcountAt(before, roleId, week).Some?
      ensures HeadcountAt(after, roleId, week).value <= HeadcountAt(before, roleId, week).value
      ensures HeadcountAt(after, roleId, week) == HeadcountAt(before, roleId, week)
           || (Envelope.FindResourceType(context.resourceTypes, roleId).Some? ==>
                 AtLeastNamed(HeadcountAt(after, roleId, week).value, context.resourceTypes, roleId, week))
    {
      CommitAtWeek(context, before, after, i, j, roleId, week);
    }
    forall roleId, week | roleId in maxCap && HeadcountAt(after, roleId, week).Some? && WithinMaximums(before, context.resourceTypes, maxCap)
      ensures AtMostMaximum(HeadcountAt(after, roleId, week).value, context.resourceTypes, roleId, maxCap[roleId])
    {
      LessIsWithin(HeadcountAt(after, roleId, week).value, HeadcountAt(before, roleId, week).value, context.resourceTypes, roleId, maxCap[roleId]);
    }
    forall roleId, week | week >= 0 && HeadcountAt(after, roleId, week).Some? && StaffsNamed(before, context.resourceTypes)
      ensures AtLeastNamed(HeadcountAt(after, roleId, week).value, context.resourceTypes, roleId, week)
    {
      FoundIfNamed(HeadcountAt(before, roleId, week).value, context.resourceTypes, roleId, week);
    }
  }

  lemma FoundIfNamed(headcount: nat, roles: seq<ResourceType>, roleId: Id, week: int)
    requires AtLeastNamed(headcount, roles, roleId, week)
    ensures Envelope.FindResourceType(roles, roleId).Some?
  {
  }

  lemma CommitAtWeek(context: Context, before: seq<Period>, after: seq<Period>, i: nat, j: nat, roleId: Id, week: int)
    requires Slot(before, i, j) && CommitAt(context, before, after, i, j) && HeadcountAt(after, roleId, week).Some?
    ensures HeadcountAt(before, roleId, week).Some?
    ensures HeadcountAt(after, roleId, week).value <= HeadcountAt(before, roleId, week).value
    ensures HeadcountAt(after, roleId, week) == HeadcountAt(before, roleId, week)
         || (Envelope.FindResourceType(context.resourceTypes, roleId).Some? ==>
               AtLeastNamed(HeadcountAt(after, roleId, week).value, context.resourceTypes, roleId, week))
  {
    SpeaksAlike(after, before, roleId, week);
    var k, m := SlotOf(before, after, roleId, week);
    if k == i && m == j {
      var rt := Envelope.FindResourceType(context.resourceTypes, roleId);
      if rt.Some? {
        Envelope.PeakNamedIsPeak(rt.value.namedResources, before[i].startWeek, before[i].endWeek);
      }
    } else {
      assert SlotHeadcount(after, k, m) == SlotHeadcount(before, k, m);
    }
  }

  /** A whole run of removals keeps both bounds. */
  lemma {:induction false} RunFits(context: Context, trace: seq<seq<Period>>, first: seq<Period>, last: seq<Period>, maxCap: map<Id, nat>)
    requires UniqueSlots(first) && IsRun(context, trace, first, last)
    ensures SameShape(last, first) && UniqueSlots(last)
    ensures WithinMaximums(first, context.resourceTypes, maxCap) ==> WithinMaximums(last, context.resourceTypes, maxCap)
    ensures StaffsNamed(first, context.resourceTypes) ==> StaffsNamed(last, context.resourceTypes)
    decreases |trace|
  {
    hide WithinMaximums, StaffsNamed, IsCommit;
    var n := |trace|;
    if n == 1 {
    } else {
      var before := trace[..n - 1];
      assert IsRun(context, before, first, trace[n - 2]);
      RunFits(context, before, first, trace[n - 2], maxCap);
      assert IsCommit(context, trace[n - 2], trace[n - 1]);
      CommitFits(context, trace[n - 2], trace[n - 1], maxCap);
    }
  }

  lemma SameHeadcountsFit(a: seq<Period>, b: seq<Period>, roles: seq<ResourceType>, maxCap: map<Id, nat>)
    requires forall roleId, week :: HeadcountAt(a, roleId, week) == HeadcountAt(b, roleId, week)
    ensures WithinMaximums(a, roles, maxCap) <==> WithinMaximums(b, roles, maxCap)
    ensures StaffsNamed(a, roles) <==> StaffsNamed(b, roles)
  {
    hide HeadcountAt, AtLeastNamed, AtMostMaximum;
  }

  /** The bounds speak of people only, which growth and seeding never change. */
  lemma SamePeopleFit(periods: seq<Period>, a: seq<ResourceType>, b: seq<ResourceType>, maxCap: map<Id, nat>)
    requires SameRoles(a, b)
    ensures WithinMaximums(periods, a, maxCap) <==> WithinMaximums(periods, b, maxCap)
    ensures StaffsNamed(periods, a) <==> StaffsNamed(periods, b)
  {
    hide HeadcountAt;
    forall roleId
      ensures Envelope.FindResourceType(a, roleId).Some? <==> Envelope.FindResourceType(b, roleId).Some?
      ensures Envelope.FindResourceType(a, roleId).Some? ==>
                Envelope.FindResourceType(a, roleId).value.namedResources == Envelope.FindResourceType(b, roleId).value.namedResources
    {
      SameRolesFound(a, b, roleId);
    }
  }
}
