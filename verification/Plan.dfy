/** The published plan: consecutive week ranges, each with one headcount per planned role. */
module Plan {
  import opened Common
  import opened Scheduler

  /** Cost is in hundredths of a day-rate unit, unrounded. */
  datatype RoleHeadcount = RoleHeadcount(roleId: Id, headcount: nat, cost: nat)

  datatype Period = Period(periodIndex: nat, startWeek: int, endWeek: int, resources: seq<RoleHeadcount>)

  datatype CapacityEdit = CapacityEdit(roleId: Id, startWeek: int, endWeek: int, headcount: nat, locked: bool)

  predicate Spans(period: Period, week: int) {
    period.startWeek <= week < period.endWeek
  }

  /** Nonempty half-open week ranges in increasing order, gaps allowed. */
  ghost predicate Ordered(periods: seq<Period>) {
    && (forall i :: 0 <= i < |periods| ==> periods[i].startWeek < periods[i].endWeek)
    && (forall i, j :: 0 <= i < j < |periods| ==> periods[i].endWeek <= periods[j].startWeek)
  }

  function FindPeriod(periods: seq<Period>, week: int): Option<Period> {
    if periods == [] then None
    else if Spans(periods[0], week) then Some(periods[0])
    else FindPeriod(periods[1..], week)
  }

  function FindRole(resources: seq<RoleHeadcount>, roleId: Id): Option<RoleHeadcount> {
    if resources == [] then None
    else if resources[0].roleId == roleId then Some(resources[0])
    else FindRole(resources[1..], roleId)
  }

  lemma {:induction false} FindDistinctRole(resources: seq<RoleHeadcount>, k: nat)
    requires k < |resources|
    requires forall i, j :: 0 <= i < j < |resources| ==> resources[i].roleId != resources[j].roleId
    ensures FindRole(resources, resources[k].roleId) == Some(resources[k])
  {
    if k == 0 {
    } else {
      FindDistinctRole(resources[1..], k - 1);
    }
  }

  /** The headcount a plan gives a role in a week, if the plan mentions it there at all. */
  function HeadcountAt(periods: seq<Period>, roleId: Id, week: int): Option<nat> {
    var period := FindPeriod(periods, week);
    if period.None? then None
    else
      var resource := FindRole(period.value.resources, roleId);
      if resource.None? then None else Some(resource.value.headcount)
  }

  lemma {:induction false} FindPeriodIn(periods: seq<Period>, week: int)
    ensures FindPeriod(periods, week).Some? ==>
              FindPeriod(periods, week).value in periods && Spans(FindPeriod(periods, week).value, week)
    ensures FindPeriod(periods, week).None? ==> forall period :: period in periods ==> !Spans(period, week)
  {
    if periods == [] {
    } else {
      FindPeriodIn(periods[1..], week);
    }
  }

  /** In an ordered plan the period of a week is the only one spanning it. */
  lemma FindPeriodAt(periods: seq<Period>, i: nat, week: int)
    requires Ordered(periods) && i < |periods| && Spans(periods[i], week)
    ensures FindPeriod(periods, week) == Some(periods[i])
  {
    FindPeriodIn(periods, week);
    assert periods[i] in periods;
    var found := FindPeriod(periods, week).value;
    var j :| 0 <= j < |periods| && periods[j] == found;
  }

  function PeriodHeadcount(resources: seq<RoleHeadcount>): nat {
    if resources == [] then 0
    else PeriodHeadcount(resources[..|resources| - 1]) + resources[|resources| - 1].headcount
  }

  function Width(period: Period): nat {
    Max(0, period.endWeek - period.startWeek)
  }

  /** FTE-weeks over a whole plan, in hundredths. */
  function StaffedFteWeeks(periods: seq<Period>): nat {
    if periods == [] then 0
    else
      var last := periods[|periods| - 1];
      StaffedFteWeeks(periods[..|periods| - 1]) + PeriodHeadcount(last.resources) * Width(last)
  }
}
