/**
 * The common core of the capacity-plan materialisers: one layer of a plan, built by
 * merging consecutive periods whose share of the layer agrees within the tolerance.
 * Percentages and headcounts are exact reals here, so that the tolerance can be stated.
 */
module PlanLayers {
  import opened Common
  import Sorting

  const FLOAT_EPSILON: real := 0.000001

  /** A half-open period of weeks with one headcount in FTE. */
  datatype PlanPeriod = PlanPeriod(periodIndex: int, startWeek: int, endWeek: int, headcount: real)

  /** An inclusive window of weeks. */
  datatype Window = Window(startWeek: int, endWeek: int, percent: real)

  function RealAbs(x: real): real { if x >= 0.0 then x else -x }

  function RealMin(a: real, b: real): real { if a <= b then a else b }

  function RealMax(a: real, b: real): real { if a >= b then a else b }

  predicate Close(a: real, b: real) {
    RealAbs(a - b) <= FLOAT_EPSILON
  }

  predicate InPeriod(period: PlanPeriod, week: int) {
    period.startWeek <= week < period.endWeek
  }

  predicate InWindow(window: Window, week: int) {
    window.startWeek <= week <= window.endWeek
  }

  /** Weeks in order and pairwise disjoint; empty periods may stand anywhere. */
  ghost predicate OrderedDisjoint(periods: seq<PlanPeriod>) {
    forall i, j :: 0 <= i < j < |periods| && periods[i].startWeek < periods[i].endWeek && periods[j].startWeek < periods[j].endWeek ==>
      periods[i].endWeek <= periods[j].startWeek
  }

  predicate IsEmpty(period: PlanPeriod) {
    period.endWeek <= period.startWeek
  }

  /** The plan's headcount in a week: the last period written there wins. */
  function HeadcountIn(periods: seq<PlanPeriod>, week: int): Option<real> {
    if periods == [] then None
    else if InPeriod(periods[|periods| - 1], week) then Some(periods[|periods| - 1].headcount)
    else HeadcountIn(periods[..|periods| - 1], week)
  }

  function ShareIn(periods: seq<PlanPeriod>, share: real -> real, week: int): real {
    var headcount := HeadcountIn(periods, week);
    if headcount.Some? then share(headcount.value) else 0.0
  }

  /** Percentages of all windows over a week. */
  function PercentAt(windows: seq<Window>, week: int): real {
    if windows == [] then 0.0
    else (if InWindow(windows[0], week) then windows[0].percent else 0.0) + PercentAt(windows[1..], week)
  }

  lemma {:induction false} PercentAppend(a: seq<Window>, b: seq<Window>, week: int)
    ensures PercentAt(a + b, week) == PercentAt(a, week) + PercentAt(b, week)
  {
    if a == [] {
      assert a + b == b;
    } else {
      assert (a + b)[1..] == a[1..] + b;
      PercentAppend(a[1..], b, week);
    }
  }

  lemma PercentOne(window: Window, week: int)
    ensures PercentAt([window], week) == if InWindow(window, week) then window.percent else 0.0
  {
    assert PercentAt([window][1..], week) == 0.0;
  }

  lemma {:induction false} PercentNone(windows: seq<Window>, week: int)
    requires forall k :: 0 <= k < |windows| ==> !InWindow(windows[k], week)
    ensures PercentAt(windows, week) == 0.0
  {
    if windows == [] {
    } else {
      PercentNone(windows[1..], week);
    }
  }

  /** Windows in order, disjoint and nonempty. */
  ghost predicate OrderedWindows(windows: seq<Window>) {
    && (forall k :: 0 <= k < |windows| ==> windows[k].startWeek <= windows[k].endWeek)
    && (forall j, k :: 0 <= j < k < |windows| ==> windows[j].endWeek < windows[k].startWeek)
  }

  /** Touching windows differ by more than the tolerance. */
  ghost predicate MaximalWindows(windows: seq<Window>) {
    forall k :: 0 < k < |windows| ==>
      windows[k - 1].endWeek + 1 == windows[k].startWeek ==> !Close(windows[k - 1].percent, windows[k].percent)
  }

  lemma {:induction false} PercentSingle(windows: seq<Window>, k: nat, week: int)
    requires OrderedWindows(windows) && k < |windows| && InWindow(windows[k], week)
    ensures PercentAt(windows, week) == windows[k].percent
  {
    if k == 0 {
      PercentNone(windows[1..], week);
    } else {
      assert windows[0].endWeek < windows[k].startWeek;
      PercentSingle(windows[1..], k - 1, week);
    }
  }

  /** Every window's percentage is above the tolerance and is the share of the week it starts in. */
  ghost predicate FromShares(windows: seq<Window>, periods: seq<PlanPeriod>, share: real -> real) {
    forall k :: 0 <= k < |windows| ==>
      windows[k].percent > FLOAT_EPSILON && windows[k].percent == ShareIn(periods, share, windows[k].startWeek)
  }

  /** The week-by-week meaning of a layer: nothing where the share is negligible, else close to the share. */
  ghost predicate TracksShare(windows: seq<Window>, periods: seq<PlanPeriod>, share: real -> real, week: int) {
    var value := ShareIn(periods, share, week);
    if value <= FLOAT_EPSILON then PercentAt(windows, week) == 0.0
    else Close(PercentAt(windows, week), value) && exists k :: 0 <= k < |windows| && InWindow(windows[k], week)
  }

  ghost predicate IsLayer(windows: seq<Window>, periods: seq<PlanPeriod>, share: real -> real) {
    && OrderedWindows(windows)
    && FromShares(windows, periods, share)
    && (forall week :: TracksShare(windows, periods, share, week))
  }

  // ── Building a layer ───────────────────────────────────────────────────────

  /** Closed windows together with the one still open. */
  function WithCurrent(windows: seq<Window>, current: Option<Window>): seq<Window> {
    if current.Some? then windows + [current.value] else windows
  }

  /** Every window lies before every later nonempty period. */
  ghost predicate Precede(windows: seq<Window>, periods: seq<PlanPeriod>, i: nat) {
    forall k, j :: 0 <= k < |windows| && i <= j < |periods| && periods[j].startWeek < periods[j].endWeek ==>
      windows[k].endWeek < periods[j].startWeek
  }

  /** After the first i periods: a layer of them, before anything that follows. */
  ghost predicate LayerSoFar(windows: seq<Window>, current: Option<Window>, periods: seq<PlanPeriod>, share: real -> real, i: nat)
    requires i <= |periods|
  {
    var all := WithCurrent(windows, current);
    && IsLayer(all, periods[..i], share)
    && Precede(all, periods, i)
  }

  lemma HeadcountStep(periods: seq<PlanPeriod>, i: nat, week: int)
    requires i < |periods|
    ensures HeadcountIn(periods[..i + 1], week)
         == if InPeriod(periods[i], week) then Some(periods[i].headcount) else HeadcountIn(periods[..i], week)
  {
    assert periods[..i + 1][..i] == periods[..i];
  }

  lemma {:induction false} HeadcountMember(periods: seq<PlanPeriod>, week: int)
    ensures HeadcountIn(periods, week).None? <==> forall j :: 0 <= j < |periods| ==> !InPeriod(periods[j], week)
    ensures HeadcountIn(periods, week).Some? ==>
              exists j :: 0 <= j < |periods| && InPeriod(periods[j], week) && HeadcountIn(periods, week) == Some(periods[j].headcount)
  {
    if periods == [] {
    } else {
      HeadcountMember(periods[..|periods| - 1], week);
      var last := |periods| - 1;
      if !InPeriod(periods[last], week) && HeadcountIn(periods, week).Some? {
        var j :| 0 <= j < last && InPeriod(periods[..last][j], week) && HeadcountIn(periods, week) == Some(periods[..last][j].headcount);
        assert InPeriod(periods[j], week);
      }
    }
  }

  /** In ordered disjoint periods an earlier prefix says nothing about a later period's weeks. */
  lemma NothingBefore(periods: seq<PlanPeriod>, i: nat, week: int)
    requires OrderedDisjoint(periods) && i < |periods| && InPeriod(periods[i], week)
    ensures HeadcountIn(periods[..i], week) == None
  {
    HeadcountMember(periods[..i], week);
  }

  lemma SharesGrow(windows: seq<Window>, periods: seq<PlanPeriod>, i: nat, share: real -> real)
    requires OrderedDisjoint(periods) && i < |periods| && FromShares(windows, periods[..i], share)
    ensures FromShares(windows, periods[..i + 1], share)
  {
    forall k | 0 <= k < |windows|
      ensures ShareIn(periods[..i + 1], share, windows[k].startWeek) == windows[k].percent
    {
      HeadcountStep(periods, i, windows[k].startWeek);
      if InPeriod(periods[i], windows[k].startWeek) {
        NothingBefore(periods, i, windows[k].startWeek);
      }
    }
  }

  /** A negligible or empty period leaves the windows alone. */
  lemma SkipPeriod(windows: seq<Window>, periods: seq<PlanPeriod>, i: nat, share: real -> real)
    requires OrderedDisjoint(periods) && i < |periods| && IsLayer(windows, periods[..i], share)
    requires share(periods[i].headcount) <= FLOAT_EPSILON || periods[i].endWeek - 1 < periods[i].startWeek
    ensures IsLayer(windows, periods[..i + 1], share)
  {
    SharesGrow(windows, periods, i, share);
    var prefix := periods[..i + 1];
    forall week
      ensures TracksShare(windows, prefix, share, week)
    {
      assert TracksShare(windows, periods[..i], share, week);
      HeadcountStep(periods, i, week);
      if InPeriod(periods[i], week) {
        NothingBefore(periods, i, week);
      }
    }
  }

  /** A new window for a period that cannot be merged. */
  lemma OpenWindow(windows: seq<Window>, periods: seq<PlanPeriod>, i: nat, share: real -> real)
    requires OrderedDisjoint(periods) && i < |periods| && IsLayer(windows, periods[..i], share)
    requires forall k :: 0 <= k < |windows| ==> windows[k].endWeek < periods[i].startWeek
    requires share(periods[i].headcount) > FLOAT_EPSILON && periods[i].startWeek < periods[i].endWeek
    ensures IsLayer(windows + [Window(periods[i].startWeek, periods[i].endWeek - 1, share(periods[i].headcount))], periods[..i + 1], share)
  {
    var added := Window(periods[i].startWeek, periods[i].endWeek - 1, share(periods[i].headcount));
    SharesGrow(windows, periods, i, share);
    HeadcountStep(periods, i, periods[i].startWeek);
    var prefix := periods[..i + 1];
    forall week
      ensures TracksShare(windows + [added], prefix, share, week)
    {
      assert TracksShare(windows, periods[..i], share, week);
      HeadcountStep(periods, i, week);
      PercentAppend(windows, [added], week);
      PercentOne(added, week);
      if InPeriod(periods[i], week) {
        PercentNone(windows, week);
        assert InWindow((windows + [added])[|windows|], week);
      } else if ShareIn(periods[..i], share, week) > FLOAT_EPSILON {
        var k :| 0 <= k < |windows| && InWindow(windows[k], week);
        assert InWindow((windows + [added])[k], week);
      }
    }
  }

  /** Extending the open window over a touching period with a close share. */
  lemma ExtendWindow(windows: seq<Window>, current: Window, periods: seq<PlanPeriod>, i: nat, share: real -> real)
    requires OrderedDisjoint(periods) && i < |periods| && IsLayer(windows + [current], periods[..i], share)
    requires current.endWeek + 1 == periods[i].startWeek < periods[i].endWeek
    requires share(periods[i].headcount) > FLOAT_EPSILON && Close(current.percent, share(periods[i].headcount))
    ensures IsLayer(windows + [current.(endWeek := periods[i].endWeek - 1)], periods[..i + 1], share)
  {
    var before := windows + [current];
    var extended := current.(endWeek := periods[i].endWeek - 1);
    var after := windows + [extended];
    SharesGrow(before, periods, i, share);
    assert before[|windows|] == current && forall k :: 0 <= k < |windows| ==> before[k] == windows[k] == after[k];
    var prefix := periods[..i + 1];
    forall week
      ensures TracksShare(after, prefix, share, week)
    {
      assert TracksShare(before, periods[..i], share, week);
      HeadcountStep(periods, i, week);
      PercentAppend(windows, [current], week);
      PercentAppend(windows, [extended], week);
      PercentOne(current, week);
      PercentOne(extended, week);
      if InPeriod(periods[i], week) {
        PercentNone(windows, week);
        assert InWindow(after[|windows|], week);
      } else if ShareIn(periods[..i], share, week) > FLOAT_EPSILON {
        var k :| 0 <= k < |before| && InWindow(before[k], week);
        assert InWindow(after[k], week);
      }
    }
  }

  lemma PrecedeAppend(windows: seq<Window>, window: Window, periods: seq<PlanPeriod>, i: nat)
    requires OrderedDisjoint(periods) && i < |periods| && periods[i].startWeek < periods[i].endWeek
    requires Precede(windows, periods, i) && window.endWeek == periods[i].endWeek - 1
    ensures Precede(windows + [window], periods, i + 1)
  {
  }

  lemma SkipKeeps(windows: seq<Window>, current: Option<Window>, periods: seq<PlanPeriod>, share: real -> real, i: nat)
    requires OrderedDisjoint(periods) && i < |periods| && LayerSoFar(windows, current, periods, share, i)
    requires share(periods[i].headcount) <= FLOAT_EPSILON || periods[i].endWeek - 1 < periods[i].startWeek
    ensures LayerSoFar(WithCurrent(windows, current), None, periods, share, i + 1)
  {
    SkipPeriod(WithCurrent(windows, current), periods, i, share);
  }

  lemma OpenKeeps(windows: seq<Window>, current: Option<Window>, periods: seq<PlanPeriod>, share: real -> real, i: nat)
    requires OrderedDisjoint(periods) && i < |periods| && LayerSoFar(windows, current, periods, share, i)
    requires share(periods[i].headcount) > FLOAT_EPSILON && periods[i].startWeek < periods[i].endWeek
    requires current.Some? ==> !(Close(current.value.percent, share(periods[i].headcount)) && periods[i].startWeek <= current.value.endWeek + 1)
    ensures var next := Window(periods[i].startWeek, periods[i].endWeek - 1, share(periods[i].headcount));
            LayerSoFar(WithCurrent(windows, current), Some(next), periods, share, i + 1)
  {
    var all := WithCurrent(windows, current);
    var next := Window(periods[i].startWeek, periods[i].endWeek - 1, share(periods[i].headcount));
    OpenWindow(all, periods, i, share);
    PrecedeAppend(all, next, periods, i);
  }

  lemma ExtendKeeps(windows: seq<Window>, current: Window, periods: seq<PlanPeriod>, share: real -> real, i: nat)
    requires OrderedDisjoint(periods) && i < |periods| && LayerSoFar(windows, Some(current), periods, share, i)
    requires share(periods[i].headcount) > FLOAT_EPSILON && periods[i].startWeek < periods[i].endWeek
    requires Close(current.percent, share(periods[i].headcount)) && periods[i].startWeek <= current.endWeek + 1
    ensures LayerSoFar(windows, Some(current.(endWeek := periods[i].endWeek - 1)), periods, share, i + 1)
  {
    assert (windows + [current])[|windows|] == current;
    ExtendWindow(windows, current, periods, i, share);
    assert Precede(windows, periods, i) by {
      assert forall k :: 0 <= k < |windows| ==> (windows + [current])[k] == windows[k];
    }
    PrecedeAppend(windows, current.(endWeek := periods[i].endWeek - 1), periods, i);
  }

  /** The closed windows and the open one. */
  datatype Merging = Merging(closed: seq<Window>, current: Option<Window>)

  /** One period of the merge loop: closed, opened, extended, or closed and opened. */
  function Merged(state: Merging, period: PlanPeriod, share: real -> real): Merging {
    var percent := share(period.headcount);
    var started := Some(Window(period.startWeek, period.endWeek - 1, percent));
    if percent <= FLOAT_EPSILON || period.endWeek - 1 < period.startWeek then
      Merging(WithCurrent(state.closed, state.current), None)
    else if state.current.Some? && Close(state.current.value.percent, percent) && period.startWeek <= state.current.value.endWeek + 1 then
      Merging(state.closed, Some(state.current.value.(endWeek := period.endWeek - 1)))
    else Merging(WithCurrent(state.closed, state.current), started)
  }

  function MergedPeriods(periods: seq<PlanPeriod>, share: real -> real): Merging {
    if periods == [] then Merging([], None)
    else Merged(MergedPeriods(periods[..|periods| - 1], share), periods[|periods| - 1], share)
  }

  /** One layer of a plan. */
  function Layer(periods: seq<PlanPeriod>, share: real -> real): seq<Window> {
    var state := MergedPeriods(periods, share);
    WithCurrent(state.closed, state.current)
  }

  method MergePeriod(windows: seq<Window>, current: Option<Window>, period: PlanPeriod, share: real -> real)
    returns (closed: seq<Window>, next: Option<Window>)
    ensures Merging(closed, next) == Merged(Merging(windows, current), period, share)
  {
    closed, next := windows, current;
    var percent := share(period.headcount);
    var inclusiveEndWeek := period.endWeek - 1;
    if percent <= FLOAT_EPSILON || inclusiveEndWeek < period.startWeek {
      if current.Some? {
        closed := windows + [current.value];
        next := None;
      }
    } else if current.None? {
      next := Some(Window(period.startWeek, inclusiveEndWeek, percent));
    } else if Close(current.value.percent, percent) && period.startWeek <= current.value.endWeek + 1 {
      next := Some(current.value.(endWeek := inclusiveEndWeek));
    } else {
      closed := windows + [current.value];
      next := Some(Window(period.startWeek, inclusiveEndWeek, percent));
    }
  }

  lemma {:induction false} MergedIsLayer(periods: seq<PlanPeriod>, share: real -> real, i: nat)
    requires OrderedDisjoint(periods) && i <= |periods|
    ensures var state := MergedPeriods(periods[..i], share);
            LayerSoFar(state.closed, state.current, periods, share, i)
  {
    if i == 0 {
    } else {
      hide LayerSoFar;
      MergedIsLayer(periods, share, i - 1);
      assert periods[..i][..i - 1] == periods[..i - 1];
      MergeKeepsLayer(MergedPeriods(periods[..i - 1], share), periods, share, i - 1);
    }
  }

  lemma MergeKeepsLayer(state: Merging, periods: seq<PlanPeriod>, share: real -> real, i: nat)
    requires OrderedDisjoint(periods) && i < |periods| && LayerSoFar(state.closed, state.current, periods, share, i)
    ensures var next := Merged(state, periods[i], share); LayerSoFar(next.closed, next.current, periods, share, i + 1)
  {
    hide LayerSoFar;
    var percent := share(periods[i].headcount);
    if percent <= FLOAT_EPSILON || IsEmpty(periods[i]) {
      SkipKeeps(state.closed, state.current, periods, share, i);
    } else if state.current.Some? && Close(state.current.value.percent, percent) && periods[i].startWeek <= state.current.value.endWeek + 1 {
      ExtendKeeps(state.closed, state.current.value, periods, share, i);
    } else {
      OpenKeeps(state.closed, state.current, periods, share, i);
    }
  }

  // ── What a layer holds, period by period ───────────────────────────────────

  /** A run of touching staffed periods: where it ends, and the percentage of the period that opened it. */
  datatype Run = Run(endWeek: int, percent: real)

  predicate Continues(run: Option<Run>, period: PlanPeriod, share: real -> real) {
    run.Some? && period.startWeek <= run.value.endWeek && Close(run.value.percent, share(period.headcount))
  }

  /** The run that the last period belongs to; empty periods stand aside, but nothing is merged across them. */
  function LastRun(periods: seq<PlanPeriod>, share: real -> real): Option<Run> {
    if periods == [] then None
    else
      var last := periods[|periods| - 1];
      var before := LastRun(periods[..|periods| - 1], share);
      if IsEmpty(last) then before
      else if share(last.headcount) <= FLOAT_EPSILON then None
      else if Continues(before, last, share) && !IsEmpty(periods[|periods| - 2]) then Some(Run(last.endWeek, before.value.percent))
      else Some(Run(last.endWeek, share(last.headcount)))
  }

  /** The percentage held in a week: that of the run its period belongs to. */
  function HeldIn(periods: seq<PlanPeriod>, share: real -> real, week: int): real {
    if periods == [] then 0.0
    else if InPeriod(periods[|periods| - 1], week) then
      var run := LastRun(periods, share);
      if run.Some? then run.value.percent else 0.0
    else HeldIn(periods[..|periods| - 1], share, week)
  }

  /** No run goes on, at a close percentage, right after an empty period. */
  predicate Unsplit(periods: seq<PlanPeriod>, share: real -> real) {
    periods == []
    || (Unsplit(periods[..|periods| - 1], share) && !SplitsRun(periods[..|periods| - 1], periods[|periods| - 1], share))
  }

  predicate SplitsRun(periods: seq<PlanPeriod>, next: PlanPeriod, share: real -> real) {
    && periods != [] && IsEmpty(periods[|periods| - 1])
    && !IsEmpty(next) && share(next.headcount) > FLOAT_EPSILON && Continues(LastRun(periods, share), next, share)
  }

  /** The merge state is where the last run is: its window is the last one, still open unless an empty period came. */
  ghost predicate Follows(state: Merging, periods: seq<PlanPeriod>, share: real -> real, i: nat)
    requires i <= |periods|
  {
    var all := WithCurrent(state.closed, state.current);
    var run := LastRun(periods[..i], share);
    && (state.current.Some? <==> run.Some? && i > 0 && !IsEmpty(periods[i - 1]))
    && (run.Some? ==> all != [] && all[|all| - 1].endWeek + 1 == run.value.endWeek && all[|all| - 1].percent == run.value.percent)
    && (run.None? && all != [] ==>
          forall j :: i <= j < |periods| && !IsEmpty(periods[j]) ==> all[|all| - 1].endWeek + 1 < periods[j].startWeek)
    && (MaximalWindows(all) <==> Unsplit(periods[..i], share))
  }

  lemma {:induction false} NothingEmptyIsUnsplit(periods: seq<PlanPeriod>, share: real -> real)
    requires forall i :: 0 <= i < |periods| ==> !IsEmpty(periods[i])
    ensures Unsplit(periods, share)
  {
    if periods == [] {
    } else {
      NothingEmptyIsUnsplit(periods[..|periods| - 1], share);
    }
  }

  lemma LastRunStep(periods: seq<PlanPeriod>, share: real -> real, i: nat)
    requires i < |periods|
    ensures var before := LastRun(periods[..i], share);
            LastRun(periods[..i + 1], share)
            == if IsEmpty(periods[i]) then before
               else if share(periods[i].headcount) <= FLOAT_EPSILON then None
               else if Continues(before, periods[i], share) && i > 0 && !IsEmpty(periods[i - 1])
                 then Some(Run(periods[i].endWeek, before.value.percent))
               else Some(Run(periods[i].endWeek, share(periods[i].headcount)))
    ensures Unsplit(periods[..i + 1], share) <==>
              Unsplit(periods[..i], share) && !SplitsRun(periods[..i], periods[i], share)
    ensures forall week :: HeldIn(periods[..i + 1], share, week) ==
              if !InPeriod(periods[i], week) then HeldIn(periods[..i], share, week)
              else var run := LastRun(periods[..i + 1], share); if run.Some? then run.value.percent else 0.0
    ensures i == 0 ==> LastRun(periods[..i], share) == None
  {
    assert periods[..i + 1][..i] == periods[..i];
  }

  lemma MaximalAppend(windows: seq<Window>, window: Window)
    ensures MaximalWindows(windows + [window]) <==>
              && MaximalWindows(windows)
              && (windows != [] && windows[|windows| - 1].endWeek + 1 == window.startWeek ==>
                    !Close(windows[|windows| - 1].percent, window.percent))
  {
    var all := windows + [window];
    assert forall k :: 0 <= k < |windows| ==> all[k] == windows[k];
    assert all[|windows|] == window;
    if MaximalWindows(all) {
      forall k | 0 < k < |windows| && windows[k - 1].endWeek + 1 == windows[k].startWeek
        ensures !Close(windows[k - 1].percent, windows[k].percent)
      {
        assert all[k - 1] == windows[k - 1] && all[k] == windows[k];
      }
      assert all[|windows| - 1 + 1] == window;
    }
  }

  lemma MaximalExtend(windows: seq<Window>, current: Window, endWeek: int)
    ensures MaximalWindows(windows + [current.(endWeek := endWeek)]) <==> MaximalWindows(windows + [current])
  {
    MaximalAppend(windows, current);
    MaximalAppend(windows, current.(endWeek := endWeek));
  }

  lemma SkipFollows(state: Merging, periods: seq<PlanPeriod>, share: real -> real, i: nat)
    requires OrderedDisjoint(periods) && i < |periods| && LayerSoFar(state.closed, state.current, periods, share, i)
    requires Follows(state, periods, share, i)
    requires share(periods[i].headcount) <= FLOAT_EPSILON || IsEmpty(periods[i])
    ensures Follows(Merged(state, periods[i], share), periods, share, i + 1)
  {
    hide MaximalWindows, LastRun, Unsplit, HeldIn, IsLayer;
    LastRunStep(periods, share, i);
    var all := WithCurrent(state.closed, state.current);
    if !IsEmpty(periods[i]) && all != [] {
      assert all[|all| - 1].endWeek < periods[i].startWeek;
    }
  }

  lemma ExtendFollows(state: Merging, periods: seq<PlanPeriod>, share: real -> real, i: nat)
    requires OrderedDisjoint(periods) && i < |periods| && Follows(state, periods, share, i)
    requires share(periods[i].headcount) > FLOAT_EPSILON && !IsEmpty(periods[i])
    requires state.current.Some? && Close(state.current.value.percent, share(periods[i].headcount))
    requires periods[i].startWeek <= state.current.value.endWeek + 1
    ensures Follows(Merged(state, periods[i], share), periods, share, i + 1)
  {
    hide MaximalWindows, LastRun, Unsplit, HeldIn;
    LastRunStep(periods, share, i);
    MaximalExtend(state.closed, state.current.value, periods[i].endWeek - 1);
  }

  lemma OpenFollows(state: Merging, periods: seq<PlanPeriod>, share: real -> real, i: nat)
    requires OrderedDisjoint(periods) && i < |periods| && LayerSoFar(state.closed, state.current, periods, share, i)
    requires Follows(state, periods, share, i)
    requires share(periods[i].headcount) > FLOAT_EPSILON && !IsEmpty(periods[i])
    requires state.current.Some? ==>
               !(Close(state.current.value.percent, share(periods[i].headcount)) && periods[i].startWeek <= state.current.value.endWeek + 1)
    ensures Follows(Merged(state, periods[i], share), periods, share, i + 1)
  {
    hide MaximalWindows, LastRun, Unsplit, HeldIn, IsLayer;
    LastRunStep(periods, share, i);
    var all := WithCurrent(state.closed, state.current);
    var next := Window(periods[i].startWeek, periods[i].endWeek - 1, share(periods[i].headcount));
    MaximalAppend(all, next);
    var run := LastRun(periods[..i], share);
    if all != [] {
      assert all[|all| - 1].endWeek < periods[i].startWeek;
      if i > 0 {
        assert periods[..i][i - 1] == periods[i - 1];
      }
      assert SplitsRun(periods[..i], periods[i], share) <==>
          all[|all| - 1].endWeek + 1 == next.startWeek && Close(all[|all| - 1].percent, next.percent);
    }
  }

  lemma {:induction false} MergedFollows(periods: seq<PlanPeriod>, share: real -> real, i: nat)
    requires OrderedDisjoint(periods) && i <= |periods|
    ensures Follows(MergedPeriods(periods[..i], share), periods, share, i)
  {
    if i == 0 {
    } else {
      hide Follows, LayerSoFar;
      MergedFollows(periods, share, i - 1);
      MergedIsLayer(periods, share, i - 1);
      assert periods[..i][..i - 1] == periods[..i - 1];
      var state := MergedPeriods(periods[..i - 1], share);
      var percent := share(periods[i - 1].headcount);
      if percent <= FLOAT_EPSILON || IsEmpty(periods[i - 1]) {
        SkipFollows(state, periods, share, i - 1);
      } else if state.current.Some? && Close(state.current.value.percent, percent)
        && periods[i - 1].startWeek <= state.current.value.endWeek + 1 {
        ExtendFollows(state, periods, share, i - 1);
      } else {
        OpenFollows(state, periods, share, i - 1);
      }
    }
  }

  /** Merging a period changes nothing outside its weeks. */
  lemma MergeElsewhere(state: Merging, periods: seq<PlanPeriod>, share: real -> real, i: nat, week: int)
    requires i < |periods| && Follows(state, periods, share, i) && LayerSoFar(state.closed, state.current, periods, share, i)
    requires OrderedDisjoint(periods) && !InPeriod(periods[i], week)
    ensures var next := Merged(state, periods[i], share);
            PercentAt(WithCurrent(next.closed, next.current), week) == PercentAt(WithCurrent(state.closed, state.current), week)
  {
    hide MaximalWindows, LastRun, Unsplit, HeldIn, IsLayer;
    var all := WithCurrent(state.closed, state.current);
    var next := Window(periods[i].startWeek, periods[i].endWeek - 1, share(periods[i].headcount));
    PercentAppend(all, [next], week);
    PercentOne(next, week);
    if state.current.Some? {
      assert all[|all| - 1] == state.current.value;
      var extended := state.current.value.(endWeek := periods[i].endWeek - 1);
      PercentAppend(state.closed, [state.current.value], week);
      PercentAppend(state.closed, [extended], week);
      PercentOne(state.current.value, week);
      PercentOne(extended, week);
    }
  }

  /** A period's weeks carry what its run holds. */
  lemma MergedPeriodHolds(periods: seq<PlanPeriod>, share: real -> real, i: nat, week: int)
    requires OrderedDisjoint(periods) && i < |periods| && InPeriod(periods[i], week)
    ensures var state := MergedPeriods(periods[..i + 1], share); var run := LastRun(periods[..i + 1], share);
            PercentAt(WithCurrent(state.closed, state.current), week) == if run.Some? then run.value.percent else 0.0
  {
    MergedIsLayer(periods, share, i);
    MergedFollows(periods, share, i + 1);
    LastRunStep(periods, share, i);
    assert periods[..i + 1][..i] == periods[..i];
    var before := MergedPeriods(periods[..i], share);
    assert OrderedWindows(WithCurrent(before.closed, before.current));
    hide LastRun, Unsplit, HeldIn, IsLayer, MaximalWindows;
    var state := MergedPeriods(periods[..i + 1], share);
    var all := WithCurrent(before.closed, before.current);
    assert state == Merged(before, periods[i], share);
    PercentNone(all, week);
    assert state.current.None? ==> state.closed == all;
    if state.current.Some? {
      assert forall k :: 0 <= k < |state.closed| ==> state.closed[k] == all[k];
      if before.current.Some? {
        assert all[|all| - 1] == before.current.value;
      }
      PercentNone(state.closed, week);
      PercentAppend(state.closed, [state.current.value], week);
      PercentOne(state.current.value, week);
      var after := WithCurrent(state.closed, state.current);
      assert after[|after| - 1] == state.current.value;
    }
  }

  lemma {:induction false} MergedHolds(periods: seq<PlanPeriod>, share: real -> real, i: nat, week: int)
    requires OrderedDisjoint(periods) && i <= |periods|
    ensures var state := MergedPeriods(periods[..i], share);
            PercentAt(WithCurrent(state.closed, state.current), week) == HeldIn(periods[..i], share, week)
  {
    if i == 0 {
    } else {
      hide Merged, Follows, LayerSoFar, LastRun, Unsplit, PercentAt;
      LastRunStep(periods, share, i - 1);
      assert periods[..i][..i - 1] == periods[..i - 1];
      if InPeriod(periods[i - 1], week) {
        MergedPeriodHolds(periods, share, i - 1, week);
      } else {
        MergedHolds(periods, share, i - 1, week);
        MergedIsLayer(periods, share, i - 1);
        MergedFollows(periods, share, i - 1);
        MergeElsewhere(MergedPeriods(periods[..i - 1], share), periods, share, i - 1, week);
      }
    }
  }

  /** In every week a layer carries exactly what the run of the week's period holds. */
  lemma LayerHolds(periods: seq<PlanPeriod>, share: real -> real, week: int)
    requires OrderedDisjoint(periods)
    ensures PercentAt(Layer(periods, share), week) == HeldIn(periods, share, week)
  {
    MergedHolds(periods, share, |periods|, week);
    assert periods[..|periods|] == periods;
  }

  /** A layer is a layer, and is maximal exactly when no empty period splits a run. */
  lemma LayerIs(periods: seq<PlanPeriod>, share: real -> real)
    requires OrderedDisjoint(periods)
    ensures IsLayer(Layer(periods, share), periods, share)
    ensures MaximalWindows(Layer(periods, share)) <==> Unsplit(periods, share)
  {
    hide IsLayer, MaximalWindows, Unsplit;
    MergedIsLayer(periods, share, |periods|);
    MergedFollows(periods, share, |periods|);
    assert periods[..|periods|] == periods;
  }

  method BuildLayer(periods: seq<PlanPeriod>, share: real -> real) returns (windows: seq<Window>)
    requires OrderedDisjoint(periods)
    ensures windows == Layer(periods, share)
    ensures IsLayer(windows, periods, share)
    ensures MaximalWindows(windows) <==> Unsplit(periods, share)
  {
    windows := [];
    var current: Option<Window> := None;
    for i := 0 to |periods|
      invariant Merging(windows, current) == MergedPeriods(periods[..i], share)
    {
      assert periods[..i + 1][..i] == periods[..i];
      windows, current := MergePeriod(windows, current, periods[i], share);
    }
    assert periods[..|periods|] == periods;
    if current.Some? {
      windows := windows + [current.value];
    }
    LayerIs(periods, share);
  }
}
