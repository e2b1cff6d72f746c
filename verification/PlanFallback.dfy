/** Deciding whether persisted resources still match the active plan, and what a plan's windows persist as. */
module PlanFallback {
  import opened Common
  import opened PlanLayers
  import opened PlanSlots
  import opened PlanViews
  import opened PlanAgreement

  datatype PersistedResource = PersistedResource(
    startWeek: Option<int>,
    endWeek: Option<int>,
    allocationPercent: Option<real>,
    isCapacityPlan: bool)

  function Contribution(resource: PersistedResource, week: int): real {
    if resource.startWeek.Some? && resource.endWeek.Some? && resource.startWeek.value <= week <= resource.endWeek.value then
      if resource.isCapacityPlan then
        (if resource.allocationPercent.Some? then resource.allocationPercent.value else 100.0) / 100.0
      else 1.0
    else 0.0
  }

  function PersistedHeadcount(resources: seq<PersistedResource>, week: int): real {
    if resources == [] then 0.0
    else PersistedHeadcount(resources[..|resources| - 1], week) + Contribution(resources[|resources| - 1], week)
  }

  function PlannedHeadcount(weekly: map<int, real>, week: int): real {
    if week in weekly then weekly[week] else 0.0
  }

  predicate Windowed(resources: seq<PersistedResource>) {
    forall i :: 0 <= i < |resources| ==> resources[i].startWeek.Some? && resources[i].endWeek.Some?
  }

  ghost predicate MatchesEveryWeek(resources: seq<PersistedResource>, weekly: map<int, real>) {
    forall week :: MatchesIn(resources, weekly, week)
  }

  predicate MatchesIn(resources: seq<PersistedResource>, weekly: map<int, real>, week: int) {
    Close(PersistedHeadcount(resources, week), PlannedHeadcount(weekly, week))
  }

  lemma {:induction false} NobodyIn(resources: seq<PersistedResource>, week: int)
    requires forall i :: 0 <= i < |resources| ==> Contribution(resources[i], week) == 0.0
    ensures PersistedHeadcount(resources, week) == 0.0
  {
    if resources == [] {
    } else {
      NobodyIn(resources[..|resources| - 1], week);
    }
  }

  method ScanRange(resources: seq<PersistedResource>, role: MaterializedRole) returns (minStartWeek: int, maxEndWeek: int)
    requires resources != [] && Windowed(resources)
    requires IsFirstWeek(role.startWeek, role.weeklyHeadcount) && IsLastWeek(role.endWeek, role.weeklyHeadcount)
    ensures forall week :: !(minStartWeek <= week <= maxEndWeek) ==> MatchesIn(resources, role.weeklyHeadcount, week)
  {
    minStartWeek := if role.startWeek.Some? then role.startWeek.value else 0;
    maxEndWeek := if role.endWeek.Some? then role.endWeek.value else -1;
    for i := 0 to |resources|
      invariant forall week :: week in role.weeklyHeadcount ==> minStartWeek <= week <= maxEndWeek
      invariant forall j :: 0 <= j < i ==> minStartWeek <= resources[j].startWeek.value && resources[j].endWeek.value <= maxEndWeek
    {
      minStartWeek := Min(minStartWeek, resources[i].startWeek.value);
      maxEndWeek := Max(maxEndWeek, resources[i].endWeek.value);
    }
    forall week | !(minStartWeek <= week <= maxEndWeek)
      ensures MatchesIn(resources, role.weeklyHeadcount, week)
    {
      forall j | 0 <= j < |resources|
        ensures Contribution(resources[j], week) == 0.0
      {
        assert minStartWeek <= resources[j].startWeek.value;
      }
      NobodyIn(resources, week);
    }
  }

  /** The decision is about every week there is, although only a finite range is scanned. */
  method ShouldFallbackToActiveCapacityPlan(resources: seq<PersistedResource>, role: Option<MaterializedRole>) returns (fallback: bool)
    requires role.Some? ==>
               IsFirstWeek(role.value.startWeek, role.value.weeklyHeadcount) && IsLastWeek(role.value.endWeek, role.value.weeklyHeadcount)
    ensures role.None? ==> !fallback
    ensures role.Some? && (resources == [] || !Windowed(resources)) ==> fallback
    ensures role.Some? && resources != [] && Windowed(resources) ==>
              (!fallback <==> MatchesEveryWeek(resources, role.value.weeklyHeadcount))
  {
    if role.None? {
      return false;
    }
    if resources == [] {
      return true;
    }
    if exists i :: 0 <= i < |resources| && (resources[i].startWeek.None? || resources[i].endWeek.None?) {
      return true;
    }
    var minStartWeek, maxEndWeek := ScanRange(resources, role.value);
    var week := minStartWeek;
    while week <= maxEndWeek
      invariant minStartWeek <= week
      invariant forall w :: minStartWeek <= w < week && w <= maxEndWeek ==> MatchesIn(resources, role.value.weeklyHeadcount, w)
    {
      if !MatchesIn(resources, role.value.weeklyHeadcount, week) {
        return true;
      }
      week := week + 1;
    }
    fallback := false;
  }

  // ── Persisting a plan ──────────────────────────────────────────────────────

  /** One capacity-plan resource per slot window. */
  function PersistWindows(windows: seq<Window>): (r: seq<PersistedResource>)
    ensures |r| == |windows|
  {
    seq(|windows|, k requires 0 <= k < |windows| =>
      PersistedResource(Some(windows[k].startWeek), Some(windows[k].endWeek), Some(windows[k].percent), true))
  }

  lemma {:induction false} PersistedIsPercent(windows: seq<Window>, week: int)
    ensures PersistedHeadcount(PersistWindows(windows), week) == PercentAt(windows, week) / 100.0
  {
    if windows == [] {
    } else {
      var last := |windows| - 1;
      PersistedIsPercent(windows[..last], week);
      assert PersistWindows(windows)[..last] == PersistWindows(windows[..last]);
      assert windows == windows[..last] + [windows[last]];
      PercentAppend(windows[..last], [windows[last]], week);
      PercentOne(windows[last], week);
    }
  }
}
