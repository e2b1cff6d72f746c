/**
 * Turning published headcounts back into people: one slot list per extra person, grown
 * week by week, merged into windows and added to the named resources of the role.
 */
module Replay {
  import opened Common
  import opened Scheduler
  import opened Publication
  import opened Plan

  datatype SlotWindow = SlotWindow(startWeek: int, endWeek: int, percent: nat)

  /** One role's headcount over one period. */
  datatype Span = Span(startWeek: int, endWeek: int, headcount: nat)

  ghost predicate OrderedSpans(spans: seq<Span>) {
    && (forall i :: 0 <= i < |spans| ==> spans[i].startWeek < spans[i].endWeek)
    && (forall i, j :: 0 <= i < j < |spans| ==> spans[i].endWeek <= spans[j].startWeek)
  }

  function SpanHeadcount(spans: seq<Span>, week: int): Option<nat> {
    if spans == [] then None
    else if spans[0].startWeek <= week < spans[0].endWeek then Some(spans[0].headcount)
    else SpanHeadcount(spans[1..], week)
  }

  lemma {:induction false} SpanHeadcountAt(spans: seq<Span>, i: nat, week: int)
    requires OrderedSpans(spans) && i < |spans| && spans[i].startWeek <= week < spans[i].endWeek
    ensures SpanHeadcount(spans, week) == Some(spans[i].headcount)
  {
    if i == 0 {
    } else {
      assert spans[0].endWeek <= spans[i].startWeek;
      SpanHeadcountAt(spans[1..], i - 1, week);
    }
  }

  lemma {:induction false} SpanHeadcountNone(spans: seq<Span>, week: int)
    requires forall i :: 0 <= i < |spans| ==> !(spans[i].startWeek <= week < spans[i].endWeek)
    ensures SpanHeadcount(spans, week) == None
  {
    if spans == [] {
    } else {
      assert !(spans[0].startWeek <= week < spans[0].endWeek);
      SpanHeadcountNone(spans[1..], week);
    }
  }

  /** Percentages of the windows that cover a week. */
  function WindowsAt(windows: seq<SlotWindow>, week: int): nat {
    if windows == [] then 0
    else
      var last := windows[|windows| - 1];
      WindowsAt(windows[..|windows| - 1], week) + if last.startWeek <= week <= last.endWeek then last.percent else 0
  }

  function SlotAt(slots: seq<seq<SlotWindow>>, slot: nat, week: int): nat {
    if slot < |slots| then WindowsAt(slots[slot], week) else 0
  }

  function SlotsAt(slots: seq<seq<SlotWindow>>, week: int): nat {
    if slots == [] then 0 else SlotsAt(slots[..|slots| - 1], week) + WindowsAt(slots[|slots| - 1], week)
  }

  /** The part of a shortfall that one slot carries: whole people first, then the fraction. */
  function SlotShare(remaining: nat, slot: nat): nat {
    if slot < remaining / 100 then 100 else if slot == remaining / 100 then remaining % 100 else 0
  }

  function SharesBelow(remaining: nat, slots: nat): nat {
    if slots == 0 then 0 else SharesBelow(remaining, slots - 1) + SlotShare(remaining, slots - 1)
  }

  lemma {:induction false} SharesBelowValue(remaining: nat, slots: nat)
    ensures SharesBelow(remaining, slots) == if slots <= remaining / 100 then 100 * slots else remaining
  {
    if slots == 0 {
    } else {
      SharesBelowValue(remaining, slots - 1);
    }
  }

  function SlotCount(remaining: nat): nat {
    remaining / 100 + if remaining % 100 > 0 then 1 else 0
  }

  /** The shortfall over the named people, for a week a span mentions. */
  function Shortfall(rt: ResourceType, spans: seq<Span>, week: int): nat {
    var headcount := SpanHeadcount(spans, week);
    if headcount.None? then 0
    else Published(rt, headcount.value, week) - NamedCapacity(rt.namedResources, week)
  }

  ghost predicate ValidSlots(slots: seq<seq<SlotWindow>>, next: int) {
    forall s, k :: 0 <= s < |slots| && 0 <= k < |slots[s]| ==>
                     slots[s][k].startWeek <= slots[s][k].endWeek < next && slots[s][k].percent <= 100
  }

  lemma {:induction false} NothingAfter(windows: seq<SlotWindow>, week: int)
    requires forall k :: 0 <= k < |windows| ==> windows[k].endWeek < week
    ensures WindowsAt(windows, week) == 0
  {
    if windows == [] {
    } else {
      NothingAfter(windows[..|windows| - 1], week);
    }
  }

  /** Extend the slot's last window by one week, or open a new window. */
  function ExtendSlot(windows: seq<SlotWindow>, week: int, percent: nat): seq<SlotWindow> {
    var last := |windows| - 1;
    if last >= 0 && windows[last].endWeek + 1 == week && windows[last].percent == percent
    then windows[..last] + [windows[last].(endWeek := week)]
    else windows + [SlotWindow(week, week, percent)]
  }

  lemma ExtendSlotAt(windows: seq<SlotWindow>, week: int, percent: nat, v: int)
    requires forall k :: 0 <= k < |windows| ==> windows[k].startWeek <= windows[k].endWeek < week
    ensures WindowsAt(ExtendSlot(windows, week, percent), v)
         == if v == week then percent else WindowsAt(windows, v)
  {
    var last := |windows| - 1;
    var extended := ExtendSlot(windows, week, percent);
    if last >= 0 && windows[last].endWeek + 1 == week && windows[last].percent == percent {
      assert extended[..|extended| - 1] == windows[..last];
      NothingAfter(windows[..last], week);
    } else {
      assert extended[..|extended| - 1] == windows;
      NothingAfter(windows, week);
    }
  }

  function SlotPercent(remaining: nat, slot: nat): nat {
    if slot < remaining / 100 then 100 else remaining % 100
  }

  /** The slots once the first n of a week's slots are extended. */
  function WithWeek(slots: seq<seq<SlotWindow>>, week: int, remaining: nat, n: nat): (r: seq<seq<SlotWindow>>)
    ensures |r| == Max(|slots|, n)
  {
    if n == 0 then slots
    else
      var before := WithWeek(slots, week, remaining, n - 1);
      var padded := if |before| < n then before + [[]] else before;
      padded[n - 1 := ExtendSlot(padded[n - 1], week, SlotPercent(remaining, n - 1))]
  }

  /** Spread one week's shortfall over the slots. */
  method AddWeek(slots: seq<seq<SlotWindow>>, week: int, remaining: nat) returns (grown: seq<seq<SlotWindow>>)
    ensures grown == WithWeek(slots, week, remaining, SlotCount(remaining))
  {
    grown := slots;
    for slot := 0 to SlotCount(remaining)
      invariant grown == WithWeek(slots, week, remaining, slot)
    {
      if slot == |grown| {
        grown := grown + [[]];
      }
      grown := grown[slot := ExtendSlot(grown[slot], week, SlotPercent(remaining, slot))];
    }
  }

  lemma {:induction false} WithWeekValid(slots: seq<seq<SlotWindow>>, week: int, remaining: nat, n: nat)
    requires ValidSlots(slots, week) && n <= SlotCount(remaining)
    ensures ValidSlots(WithWeek(slots, week, remaining, n), week + 1)
    ensures forall s :: n <= s < |WithWeek(slots, week, remaining, n)| ==> WithWeek(slots, week, remaining, n)[s] == slots[s]
  {
    if n == 0 {
    } else {
      hide ExtendSlot, SlotPercent, SlotCount;
      WithWeekValid(slots, week, remaining, n - 1);
      PercentAtMostWhole(remaining, n - 1);
      ExtendedValid(if n - 1 < |slots| then slots[n - 1] else [], week, SlotPercent(remaining, n - 1));
    }
  }

  lemma PercentAtMostWhole(remaining: nat, slot: nat)
    ensures SlotPercent(remaining, slot) <= 100
  {
  }

  lemma ExtendedValid(windows: seq<SlotWindow>, week: int, percent: nat)
    requires percent <= 100
    requires forall k :: 0 <= k < |windows| ==> windows[k].startWeek <= windows[k].endWeek < week && windows[k].percent <= 100
    ensures var extended := ExtendSlot(windows, week, percent);
            forall k :: 0 <= k < |extended| ==>
              extended[k].startWeek <= extended[k].endWeek < week + 1 && extended[k].percent <= 100
  {
  }

  lemma {:induction false} WithWeekAt(slots: seq<seq<SlotWindow>>, week: int, remaining: nat, n: nat, s: nat, v: int)
    requires ValidSlots(slots, week) && n <= SlotCount(remaining)
    ensures SlotAt(WithWeek(slots, week, remaining, n), s, v)
         == if v == week && s < n then SlotShare(remaining, s) else SlotAt(slots, s, v)
  {
    hide ExtendSlot;
    if n == 0 {
    } else {
      WithWeekAt(slots, week, remaining, n - 1, s, v);
      WithWeekValid(slots, week, remaining, n - 1);
      if s == n - 1 {
        var prior := if s < |slots| then slots[s] else [];
        assert forall k :: 0 <= k < |prior| ==> prior[k].startWeek <= prior[k].endWeek < week;
        ExtendSlotAt(prior, week, SlotPercent(remaining, s), v);
      }
    }
  }

  /** A week's shortfall lands on its slots, and no other week moves. */
  lemma WithWeekSpreads(slots: seq<seq<SlotWindow>>, week: int, remaining: nat, s: nat, v: int)
    requires ValidSlots(slots, week)
    ensures SlotAt(WithWeek(slots, week, remaining, SlotCount(remaining)), s, v)
         == if v == week then SlotShare(remaining, s) else SlotAt(slots, s, v)
  {
    WithWeekAt(slots, week, remaining, SlotCount(remaining), s, v);
    NoSharesAt(slots, week, week, s);
  }

  /** Slots that end early carry nothing later, and an empty shortfall has no shares. */
  lemma NoSharesAt(slots: seq<seq<SlotWindow>>, next: int, week: int, s: nat)
    requires ValidSlots(slots, next) && next <= week
    ensures SlotAt(slots, s, week) == 0 == SlotShare(0, s)
  {
    if s < |slots| {
      NothingAfter(slots[s], week);
    }
  }

  /** One span's weeks before the given one, spread over the slots. */
  function WithSpan(rt: ResourceType, slots: seq<seq<SlotWindow>>, span: Span, week: int): seq<seq<SlotWindow>>
    decreases week - span.startWeek
  {
    if week <= span.startWeek then slots
    else
      var before := WithSpan(rt, slots, span, week - 1);
      var preserved := NamedCapacity(rt.namedResources, week - 1);
      if IsWithinRoleWindow(rt, week - 1) && (CanMaterializeSyntheticCapacity(rt, span.headcount) || preserved > 0) then
        var remaining := Max(0, span.headcount - preserved);
        WithWeek(before, week - 1, remaining, SlotCount(remaining))
      else before
  }

  function SlotsFor(rt: ResourceType, spans: seq<Span>): seq<seq<SlotWindow>> {
    if spans == [] then []
    else
      var last := spans[|spans| - 1];
      WithSpan(rt, SlotsFor(rt, spans[..|spans| - 1]), last, last.endWeek)
  }

  method AddSpan(rt: ResourceType, slots: seq<seq<SlotWindow>>, span: Span) returns (grown: seq<seq<SlotWindow>>)
    ensures grown == WithSpan(rt, slots, span, span.endWeek)
  {
    hide WithWeek, IsWithinRoleWindow, CanMaterializeSyntheticCapacity, NamedCapacity, SlotCount;
    grown := slots;
    var week := span.startWeek;
    while week < span.endWeek
      invariant span.startWeek <= week <= span.endWeek || week == span.startWeek
      invariant grown == WithSpan(rt, slots, span, week)
    {
      if IsWithinRoleWindow(rt, week) {
        var preserved := NamedCapacityFte(rt, week);
        if CanMaterializeSyntheticCapacity(rt, span.headcount) || preserved > 0 {
          grown := AddWeek(grown, week, Max(0, span.headcount - preserved));
        }
      }
      week := week + 1;
    }
  }

  /** The week-by-week build of all slots over the role's spans. */
  method AddSlots(rt: ResourceType, spans: seq<Span>) returns (slots: seq<seq<SlotWindow>>)
    ensures slots == SlotsFor(rt, spans)
  {
    slots := [];
    for i := 0 to |spans|
      invariant slots == SlotsFor(rt, spans[..i])
    {
      assert spans[..i + 1][..i] == spans[..i];
      slots := AddSpan(rt, slots, spans[i]);
    }
    assert spans[..|spans|] == spans;
  }

  function WeekShortfall(rt: ResourceType, headcount: nat, week: int): nat {
    Published(rt, headcount, week) - NamedCapacity(rt.namedResources, week)
  }

  lemma {:induction false} WithSpanValid(rt: ResourceType, slots: seq<seq<SlotWindow>>, span: Span, week: int)
    requires ValidSlots(slots, span.startWeek) && span.startWeek <= week
    ensures ValidSlots(WithSpan(rt, slots, span, week), week)
    decreases week - span.startWeek
  {
    hide WithWeek, IsWithinRoleWindow, CanMaterializeSyntheticCapacity, NamedCapacity, SlotCount;
    if week <= span.startWeek {
    } else {
      WithSpanValid(rt, slots, span, week - 1);
      var remaining := Max(0, span.headcount - NamedCapacity(rt.namedResources, week - 1));
      WithWeekValid(WithSpan(rt, slots, span, week - 1), week - 1, remaining, SlotCount(remaining));
    }
  }

  lemma {:induction false} WithSpanShares(rt: ResourceType, slots: seq<seq<SlotWindow>>, span: Span, week: int, s: nat, v: int)
    requires ValidSlots(slots, span.startWeek) && span.startWeek <= week
    ensures SlotAt(WithSpan(rt, slots, span, week), s, v)
         == if span.startWeek <= v < week then SlotShare(WeekShortfall(rt, span.headcount, v), s) else SlotAt(slots, s, v)
    decreases week - span.startWeek
  {
    hide WithWeek, SlotAt, SlotCount, SlotShare, CanMaterializeSyntheticCapacity, NamedCapacity;
    if week <= span.startWeek {
    } else {
      WithSpanShares(rt, slots, span, week - 1, s, v);
      WithSpanValid(rt, slots, span, week - 1);
      NoSharesAt(slots, span.startWeek, week - 1, s);
      var preserved := NamedCapacity(rt.namedResources, week - 1);
      WithWeekSpreads(WithSpan(rt, slots, span, week - 1), week - 1, Max(0, span.headcount - preserved), s, v);
    }
  }

  lemma {:induction false} SpanHeadcountLast(spans: seq<Span>, week: int)
    requires spans != [] && OrderedSpans(spans)
    ensures var last := spans[|spans| - 1];
            SpanHeadcount(spans, week)
            == if last.startWeek <= week < last.endWeek then Some(last.headcount) else SpanHeadcount(spans[..|spans| - 1], week)
  {
    if |spans| <= 1 {
    } else {
      assert spans[1..][|spans| - 2] == spans[|spans| - 1] && spans[1..][..|spans| - 2] == spans[..|spans| - 1][1..];
      assert spans[0].endWeek <= spans[|spans| - 1].startWeek;
      SpanHeadcountLast(spans[1..], week);
    }
  }

  /** Where the slots of a role end. */
  function LastEnd(spans: seq<Span>, otherwise: int): int {
    if spans == [] then otherwise else spans[|spans| - 1].endWeek
  }

  lemma {:induction false} SlotsForValid(rt: ResourceType, spans: seq<Span>, next: int)
    requires OrderedSpans(spans) && LastEnd(spans, next) <= next
    ensures ValidSlots(SlotsFor(rt, spans), next)
  {
    if spans == [] {
    } else {
      var last := spans[|spans| - 1];
      SlotsForValid(rt, spans[..|spans| - 1], last.startWeek);
      WithSpanValid(rt, SlotsFor(rt, spans[..|spans| - 1]), last, last.endWeek);
    }
  }

  /** The slots carry, week by week, exactly the shares of the role's shortfall. */
  lemma {:induction false} SlotsForShares(rt: ResourceType, spans: seq<Span>, s: nat, v: int)
    requires OrderedSpans(spans)
    ensures SlotAt(SlotsFor(rt, spans), s, v) == SlotShare(Shortfall(rt, spans, v), s)
  {
    if spans == [] {
    } else {
      var last := spans[|spans| - 1];
      var earlier := spans[..|spans| - 1];
      SlotsForShares(rt, earlier, s, v);
      SlotsForValid(rt, earlier, last.startWeek);
      WithSpanShares(rt, SlotsFor(rt, earlier), last, last.endWeek, s, v);
      SpanHeadcountLast(spans, v);
    }
  }

  function ToResource(window: SlotWindow): NamedResource {
    NamedResource(Some(window.startWeek), Some(window.endWeek), CapacityPlan, window.percent, None, None, [])
  }

  function SlotResources(windows: seq<SlotWindow>): (r: seq<NamedResource>)
    ensures |r| == |windows|
  {
    seq(|windows|, k requires 0 <= k < |windows| => ToResource(windows[k]))
  }

  function AddedResources(slots: seq<seq<SlotWindow>>): seq<NamedResource> {
    if slots == [] then [] else AddedResources(slots[..|slots| - 1]) + SlotResources(slots[|slots| - 1])
  }

  lemma {:induction false} SlotResourcesSupply(windows: seq<SlotWindow>, week: int)
    ensures NamedCapacity(SlotResources(windows), week) == WindowsAt(windows, week)
  {
    if windows == [] {
    } else {
      var last := |windows| - 1;
      assert SlotResources(windows)[..last] == SlotResources(windows[..last]);
      SlotResourcesSupply(windows[..last], week);
    }
  }

  lemma {:induction false} AddedResourcesSupply(slots: seq<seq<SlotWindow>>, week: int)
    ensures NamedCapacity(AddedResources(slots), week) == SlotsAt(slots, week)
  {
    if slots == [] {
    } else {
      var last := |slots| - 1;
      AddedResourcesSupply(slots[..last], week);
      SlotResourcesSupply(slots[last], week);
      NamedCapacityAppend(AddedResources(slots[..last]), SlotResources(slots[last]), week);
    }
  }

  lemma {:induction false} SlotsSumToShares(slots: seq<seq<SlotWindow>>, week: int, remaining: nat)
    requires forall s: nat :: s < |slots| ==> SlotAt(slots, s, week) == SlotShare(remaining, s)
    ensures SlotsAt(slots, week) == SharesBelow(remaining, |slots|)
  {
    if slots == [] {
    } else {
      var last := |slots| - 1;
      assert SlotAt(slots, last, week) == WindowsAt(slots[last], week);
      forall s: nat | s < last
        ensures SlotAt(slots[..last], s, week) == SlotShare(remaining, s)
      {
        assert SlotAt(slots, s, week) == WindowsAt(slots[s], week);
      }
      SlotsSumToShares(slots[..last], week, remaining);
    }
  }

  /** Slots that carry every share of a shortfall supply exactly that shortfall. */
  lemma SlotsSupplyShortfall(slots: seq<seq<SlotWindow>>, week: int, remaining: nat)
    requires forall s: nat :: SlotAt(slots, s, week) == SlotShare(remaining, s)
    ensures NamedCapacity(AddedResources(slots), week) == remaining
  {
    AddedResourcesSupply(slots, week);
    SlotsSumToShares(slots, week, remaining);
    SharesBelowValue(remaining, |slots|);
    if |slots| <= remaining / 100 {
      assert SlotAt(slots, |slots|, week) == SlotShare(remaining, |slots|);
      assert SlotAt(slots, |slots| + 1, week) == 0;
    }
  }

  function MaxHeadcount(spans: seq<Span>): nat {
    if spans == [] then 0 else Max(MaxHeadcount(spans[..|spans| - 1]), spans[|spans| - 1].headcount)
  }

  /** The replayed role: its people, the added people, and the greatest headcount as its count. */
  function Replayed(rt: ResourceType, spans: seq<Span>): ResourceType {
    if spans == [] then rt
    else
      rt.(
        count := MaxHeadcount(spans),
        roleSegments := if rt.roleSegments == Some([]) then Some([]) else None,
        namedResources := rt.namedResources + AddedResources(SlotsFor(rt, spans)))
  }

  method MaterializeRole(rt: ResourceType, spans: seq<Span>) returns (replayed: ResourceType)
    ensures replayed == Replayed(rt, spans)
  {
    if spans == [] {
      return rt;
    }
    var maxHeadcount := 0;
    for i := 0 to |spans|
      invariant maxHeadcount == MaxHeadcount(spans[..i])
    {
      assert spans[..i + 1][..i] == spans[..i];
      maxHeadcount := Max(maxHeadcount, spans[i].headcount);
    }
    assert spans[..|spans|] == spans;
    var slots := AddSlots(rt, spans);
    replayed := rt.(
      count := maxHeadcount,
      roleSegments := if rt.roleSegments == Some([]) then Some([]) else None,
      namedResources := rt.namedResources + AddedResources(slots));
  }

  lemma ReplayedIsReplay(rt: ResourceType, spans: seq<Span>)
    requires OrderedSpans(spans) && spans != []
    ensures IsReplay(Replayed(rt, spans), rt, spans)
  {
    var slots := SlotsFor(rt, spans);
    var added := AddedResources(slots);
    SlotsForValid(rt, spans, spans[|spans| - 1].endWeek);
    forall week
      ensures NamedCapacity(added, week) == Shortfall(rt, spans, week)
    {
      forall s: nat
        ensures SlotAt(slots, s, week) == SlotShare(Shortfall(rt, spans, week), s)
      {
        SlotsForShares(rt, spans, s, week);
      }
      SlotsSupplyShortfall(slots, week, Shortfall(rt, spans, week));
    }
    AddedPercents(slots);
    assert IsAddition(added, rt, spans);
  }

  lemma {:induction false} AddedPercents(slots: seq<seq<SlotWindow>>)
    requires forall s, k :: 0 <= s < |slots| && 0 <= k < |slots[s]| ==> slots[s][k].percent <= 100
    ensures forall resource, week :: resource in AddedResources(slots) ==> Contribution(resource, week) <= 100
  {
    if slots == [] {
    } else {
      AddedPercents(slots[..|slots| - 1]);
    }
  }

  /** Preserved people stay, additions supply exactly the shortfall, and nobody added exceeds full time. */
  ghost predicate IsReplay(replayed: ResourceType, rt: ResourceType, spans: seq<Span>) {
    && replayed.id == rt.id
    && replayed.count == MaxHeadcount(spans)
    && replayed.roleSegments == (if rt.roleSegments == Some([]) then Some([]) else None)
    && exists added :: IsAddition(added, rt, spans) && replayed.namedResources == rt.namedResources + added
  }

  ghost predicate IsAddition(added: seq<NamedResource>, rt: ResourceType, spans: seq<Span>) {
    && (forall week :: NamedCapacity(added, week) == Shortfall(rt, spans, week))
    && (forall resource, week :: resource in added ==> Contribution(resource, week) <= 100)
  }

  /** In every week a span mentions, the replayed people supply exactly what that span publishes. */
  lemma ReplaySupplies(replayed: ResourceType, rt: ResourceType, spans: seq<Span>, week: int)
    requires IsReplay(replayed, rt, spans)
    ensures NamedCapacity(replayed.namedResources, week)
         == if SpanHeadcount(spans, week).Some? then Published(rt, SpanHeadcount(spans, week).value, week)
            else NamedCapacity(rt.namedResources, week)
  {
    var added :| IsAddition(added, rt, spans) && replayed.namedResources == rt.namedResources + added;
    NamedCapacityAppend(rt.namedResources, added, week);
  }

  ghost predicate IsPublished(rt: ResourceType, headcount: nat, week: int) {
    exists envelope: nat :: headcount == Published(rt, envelope, week)
  }

  ghost predicate PublishedSpan(rt: ResourceType, span: Span) {
    forall week :: span.startWeek <= week < span.endWeek ==> IsPublished(rt, span.headcount, week)
  }

  /** Spans as published from an envelope: each week's headcount is the published value of that week. */
  ghost predicate PublishedSpans(rt: ResourceType, spans: seq<Span>) {
    forall i :: 0 <= i < |spans| ==> PublishedSpan(rt, spans[i])
  }

  /** Replay equals publication. */
  lemma ReplayEqualsPublication(replayed: ResourceType, rt: ResourceType, spans: seq<Span>, i: nat, week: int)
    requires OrderedSpans(spans) && PublishedSpans(rt, spans) && IsReplay(replayed, rt, spans)
    requires i < |spans| && spans[i].startWeek <= week < spans[i].endWeek
    ensures NamedCapacity(replayed.namedResources, week) == spans[i].headcount
  {
    SpanHeadcountAt(spans, i, week);
    ReplaySupplies(replayed, rt, spans, week);
    assert PublishedSpan(rt, spans[i]) && IsPublished(rt, spans[i].headcount, week);
    var envelope: nat :| spans[i].headcount == Published(rt, envelope, week);
    PublishedIdempotent(rt, envelope, week);
  }

  lemma {:induction false} SupplyBound(resources: seq<NamedResource>, week: int)
    requires forall resource :: resource in resources ==> Contribution(resource, week) <= 100
    ensures NamedCapacity(resources, week) <= 100 * |resources|
  {
    if resources == [] {
    } else {
      SupplyBound(resources[..|resources| - 1], week);
    }
  }

  lemma {:induction false} MaxHeadcountAttained(spans: seq<Span>) returns (i: nat)
    requires spans != []
    ensures i < |spans| && MaxHeadcount(spans) == spans[i].headcount
  {
    i := |spans| - 1;
    if |spans| > 1 && MaxHeadcount(spans) != spans[i].headcount {
      i := MaxHeadcountAttained(spans[..|spans| - 1]);
    } else if |spans| == 1 {
      assert MaxHeadcount(spans[..0]) == 0;
    }
  }

  /** The replayed role lists a person for every started hundred percent of its greatest headcount. */
  predicate EnoughPeople(rt: ResourceType, spans: seq<Span>) {
    MaxHeadcount(spans) <= 100 * (|rt.namedResources| + |AddedResources(SlotsFor(rt, spans))|)
  }

  /**
   * The scheduler sees no more than the published headcount in any published week exactly when the replayed
   * role is explicitly empty apart from its people, or lists enough people to leave no unnamed slots over.
   */
  lemma PhantomCapacityExactly(rt: ResourceType, spans: seq<Span>, i: nat, week: int)
    requires OrderedSpans(spans) && PublishedSpans(rt, spans)
    requires i < |spans| && spans[i].startWeek <= week < spans[i].endWeek
    ensures WeeklyCapacity(Replayed(rt, spans), week) == spans[i].headcount <==>
              rt.roleSegments == Some([]) || EnoughPeople(rt, spans)
  {
    hide SlotsFor, AddedResources, MaxHeadcount;
    var replayed := Replayed(rt, spans);
    ReplayedIsReplay(rt, spans);
    ReplayEqualsPublication(replayed, rt, spans, i, week);
    assert replayed.namedResources == rt.namedResources + AddedResources(SlotsFor(rt, spans));
  }

  /** In particular when nobody preserved counts for more than one full-time person. */
  lemma NoPhantomCapacity(rt: ResourceType, spans: seq<Span>, i: nat, week: int)
    requires OrderedSpans(spans) && PublishedSpans(rt, spans)
    requires forall resource, v :: resource in rt.namedResources ==> Contribution(resource, v) <= 100
    requires i < |spans| && spans[i].startWeek <= week < spans[i].endWeek
    ensures WeeklyCapacity(Replayed(rt, spans), week) == spans[i].headcount
  {
    hide SlotsFor, AddedResources, MaxHeadcount;
    var replayed := Replayed(rt, spans);
    ReplayedIsReplay(rt, spans);
    var k := MaxHeadcountAttained(spans);
    ReplayEqualsPublication(replayed, rt, spans, k, spans[k].startWeek);
    AddedAreFullTimeAtMost(rt, spans);
    SupplyBound(replayed.namedResources, spans[k].startWeek);
    PhantomCapacityExactly(rt, spans, i, week);
  }

  lemma AddedAreFullTimeAtMost(rt: ResourceType, spans: seq<Span>)
    requires OrderedSpans(spans) && spans != []
    ensures forall resource, v :: resource in AddedResources(SlotsFor(rt, spans)) ==> Contribution(resource, v) <= 100
  {
    SlotsForValid(rt, spans, spans[|spans| - 1].endWeek);
    AddedPercents(SlotsFor(rt, spans));
  }

  /** The code can fall on either side: one person planned at 250% leaves a phantom 150% on top of the replay. */
  lemma OverAllocatedPersonLeavesPhantom()
    ensures exists rt: ResourceType, spans: seq<Span> ::
              && OrderedSpans(spans) && PublishedSpans(rt, spans) && |spans| == 1
              && WeeklyCapacity(Replayed(rt, spans), spans[0].startWeek) > spans[0].headcount
  {
    var person := NamedResource(None, None, FullProject, 250, None, None, []);
    var rt := ResourceType("", 100, [person], None);
    var spans := [Span(0, 1, 250)];
    assert NamedCapacity([person], 0) == 250 by {
      assert [person][..0] == [];
    }
    assert Published(rt, 250, 0) == 250 && IsPublished(rt, 250, 0);
    assert SlotsFor(rt, spans) == [] by {
      assert SlotsFor(rt, spans[..0]) == [] && WithSpan(rt, [], spans[0], 0) == [];
    }
    assert MaxHeadcount(spans) == 250 by {
      assert spans[..0] == [];
    }
    var replayed := Replayed(rt, spans);
    assert replayed.namedResources == [person] && replayed.count == 250;
    assert WeeklyCapacity(replayed, 0) == 400;
  }
}
