/**
 * The forward-then-backward ramp pass of the capacity envelope, on one role's
 * periods, and the loop that repeats it.
 */
module Smoothing {
  import opened Common

  /** A ramp from period q to period p climbs at most delta per step. */
  function Climb(delta: nat, p: int, q: int): nat {
    delta * Abs(p - q)
  }

  ghost predicate RampBounded(s: seq<int>, delta: nat) {
    forall p, q :: 0 <= p < |s| && 0 <= q < |s| ==> s[p] <= s[q] + Climb(delta, p, q)
  }

  ghost predicate AtMost(a: seq<int>, b: seq<int>) {
    |a| == |b| && forall p :: 0 <= p < |a| ==> a[p] <= b[p]
  }

  ghost predicate MeetsSomeRamp(value: int, cap: seq<int>, delta: nat, p: int) {
    exists q :: 0 <= q < |cap| && value == cap[q] + Climb(delta, p, q)
  }

  /** out[p] is the minimum over q of cap[q] + delta * |p - q|. */
  ghost predicate IsRampMinimum(out: seq<int>, cap: seq<int>, delta: nat) {
    && |out| == |cap|
    && (forall p, q :: 0 <= p < |cap| && 0 <= q < |cap| ==> out[p] <= cap[q] + Climb(delta, p, q))
    && (forall p :: 0 <= p < |cap| ==> MeetsSomeRamp(out[p], cap, delta, p))
  }

  function Forward(cap: seq<int>, delta: nat, p: nat): int
    requires p < |cap|
  {
    if p == 0 then cap[0] else Min(cap[p], Forward(cap, delta, p - 1) + delta)
  }

  function Backward(cap: seq<int>, delta: nat, p: nat): int
    requires p < |cap|
    decreases |cap| - p
  {
    if p == |cap| - 1 then cap[p] else Min(cap[p], Backward(cap, delta, p + 1) + delta)
  }

  function ForwardAll(cap: seq<int>, delta: nat): seq<int> {
    seq(|cap|, p requires 0 <= p < |cap| => Forward(cap, delta, p))
  }

  function BackwardAll(cap: seq<int>, delta: nat): seq<int> {
    seq(|cap|, p requires 0 <= p < |cap| => Backward(cap, delta, p))
  }

  /** One forward and one backward sweep. */
  function Smooth(cap: seq<int>, delta: nat): seq<int> {
    BackwardAll(ForwardAll(cap, delta), delta)
  }

  function Raise(cap: seq<int>, bound: seq<int>): (r: seq<int>)
    requires |bound| == |cap|
  {
    seq(|cap|, p requires 0 <= p < |cap| => Max(cap[p], bound[p]))
  }

  /** One whole pass: sweep, then restore the lower bounds the sweep cut into. */
  function Pass(cap: seq<int>, delta: nat, bound: seq<int>): (r: seq<int>)
    requires |bound| == |cap|
  {
    Raise(Smooth(cap, delta), bound)
  }

  lemma {:induction false} ForwardBelow(cap: seq<int>, delta: nat, p: nat, q: nat)
    requires q <= p < |cap|
    ensures Forward(cap, delta, p) <= cap[q] + Climb(delta, p, q)
  {
    if q >= p {
    } else {
      ForwardBelow(cap, delta, p - 1, q);
      assert delta * (p - q) == delta * (p - 1 - q) + delta;
    }
  }

  lemma {:induction false} ForwardAttained(cap: seq<int>, delta: nat, p: nat) returns (q: nat)
    requires p < |cap|
    ensures q <= p && Forward(cap, delta, p) == cap[q] + Climb(delta, p, q)
  {
    q := p;
    if p > 0 && cap[p] > Forward(cap, delta, p - 1) + delta {
      q := ForwardAttained(cap, delta, p - 1);
      assert delta * (p - q) == delta * (p - 1 - q) + delta;
    }
  }

  lemma {:induction false} BackwardBelow(cap: seq<int>, delta: nat, p: nat, q: nat)
    requires p <= q < |cap|
    ensures Backward(cap, delta, p) <= cap[q] + Climb(delta, p, q)
    decreases q - p
  {
    if p >= q {
    } else {
      BackwardBelow(cap, delta, p + 1, q);
      assert delta * (q - p) == delta * (q - p - 1) + delta;
    }
  }

  lemma {:induction false} BackwardAttained(cap: seq<int>, delta: nat, p: nat) returns (q: nat)
    requires p < |cap|
    ensures p <= q < |cap| && Backward(cap, delta, p) == cap[q] + Climb(delta, p, q)
    decreases |cap| - p
  {
    q := p;
    if p < |cap| - 1 && cap[p] > Backward(cap, delta, p + 1) + delta {
      q := BackwardAttained(cap, delta, p + 1);
      assert delta * (q - p) == delta * (q - p - 1) + delta;
    }
  }

  lemma ClimbTriangle(delta: nat, p: int, q: int, r: int)
    ensures Climb(delta, p, q) <= Climb(delta, p, r) + Climb(delta, r, q)
  {
  }

  lemma SmoothBelow(cap: seq<int>, delta: nat, p: nat, q: nat)
    requires p < |cap| && q < |cap|
    ensures Smooth(cap, delta)[p] <= cap[q] + Climb(delta, p, q)
  {
    var forward := ForwardAll(cap, delta);
    if p <= q {
      BackwardBelow(forward, delta, p, q);
      ForwardBelow(cap, delta, q, q);
    } else {
      BackwardBelow(forward, delta, p, p);
      ForwardBelow(cap, delta, p, q);
    }
  }

  lemma SmoothAttained(cap: seq<int>, delta: nat, p: nat) returns (q: nat)
    requires p < |cap|
    ensures q < |cap| && Smooth(cap, delta)[p] == cap[q] + Climb(delta, p, q)
  {
    var forward := ForwardAll(cap, delta);
    var r := BackwardAttained(forward, delta, p);
    q := ForwardAttained(cap, delta, r);
    ClimbTriangle(delta, p, q, r);
    SmoothBelow(cap, delta, p, q);
  }

  /** The two sweeps compute the ramp minimum. */
  lemma SmoothIsRampMinimum(cap: seq<int>, delta: nat)
    ensures IsRampMinimum(Smooth(cap, delta), cap, delta)
  {
    var out := Smooth(cap, delta);
    forall p, q | 0 <= p < |cap| && 0 <= q < |cap|
      ensures out[p] <= cap[q] + Climb(delta, p, q)
    {
      SmoothBelow(cap, delta, p, q);
    }
    forall p | 0 <= p < |cap|
      ensures MeetsSomeRamp(out[p], cap, delta, p)
    {
      var q := SmoothAttained(cap, delta, p);
    }
  }

  /** The result is ramp bounded, below its input, and above every such sequence. */
  lemma SmoothIsLargest(cap: seq<int>, delta: nat)
    ensures RampBounded(Smooth(cap, delta), delta)
    ensures AtMost(Smooth(cap, delta), cap)
    ensures forall s :: RampBounded(s, delta) && AtMost(s, cap) ==> AtMost(s, Smooth(cap, delta))
  {
    var out := Smooth(cap, delta);
    forall p, q | 0 <= p < |out| && 0 <= q < |out|
      ensures out[p] <= out[q] + Climb(delta, p, q)
    {
      var r := SmoothAttained(cap, delta, q);
      SmoothBelow(cap, delta, p, r);
      ClimbTriangle(delta, p, r, q);
    }
    forall p | 0 <= p < |cap|
      ensures out[p] <= cap[p]
    {
      SmoothBelow(cap, delta, p, p);
    }
    forall s | RampBounded(s, delta) && AtMost(s, cap)
      ensures AtMost(s, out)
    {
      forall p | 0 <= p < |s|
        ensures s[p] <= out[p]
      {
        var q := SmoothAttained(cap, delta, p);
        assert s[p] <= s[q] + Climb(delta, p, q);
      }
    }
  }

  lemma SmoothFixed(cap: seq<int>, delta: nat)
    ensures Smooth(cap, delta) == cap <==> RampBounded(cap, delta)
  {
    SmoothIsLargest(cap, delta);
    if RampBounded(cap, delta) {
      assert AtMost(cap, Smooth(cap, delta));
    }
  }

  lemma SmoothMonotone(a: seq<int>, b: seq<int>, delta: nat)
    requires AtMost(a, b)
    ensures AtMost(Smooth(a, delta), Smooth(b, delta))
  {
    SmoothIsLargest(a, delta);
    SmoothIsLargest(b, delta);
  }

  /** A second pass over the same bounds changes no value, whatever the bounds are. */
  lemma PassSettles(cap: seq<int>, delta: nat, bound: seq<int>)
    requires |bound| == |cap|
    ensures Pass(Pass(cap, delta, bound), delta, bound) == Pass(cap, delta, bound)
  {
    var lowered := Smooth(cap, delta);
    var once := Pass(cap, delta, bound);
    SmoothIsLargest(cap, delta);
    SmoothIsLargest(once, delta);
    SmoothFixed(lowered, delta);
    SmoothMonotone(lowered, once, delta);
  }

  /**
   * A pass that starts from its own result writes nothing exactly when that result is
   * ramp bounded, and that is exactly when no lower bound sticks out of the ramps of
   * the others.
   */
  lemma PassQuietWhen(cap: seq<int>, delta: nat, bound: seq<int>)
    requires |bound| == |cap|
    ensures Smooth(Pass(cap, delta, bound), delta) == Pass(cap, delta, bound)
       <==> forall p, q :: 0 <= p < |cap| && 0 <= q < |cap| ==>
                             bound[p] <= Pass(cap, delta, bound)[q] + Climb(delta, p, q)
  {
    var lowered := Smooth(cap, delta);
    var once := Pass(cap, delta, bound);
    SmoothIsLargest(cap, delta);
    SmoothFixed(once, delta);
    if forall p, q :: 0 <= p < |cap| && 0 <= q < |cap| ==> bound[p] <= once[q] + Climb(delta, p, q) {
      forall p, q | 0 <= p < |once| && 0 <= q < |once|
        ensures once[p] <= once[q] + Climb(delta, p, q)
      {
        assert lowered[p] <= lowered[q] + Climb(delta, p, q);
      }
    } else {
      var p, q :| 0 <= p < |cap| && 0 <= q < |cap| && bound[p] > once[q] + Climb(delta, p, q);
      assert once[p] > once[q] + Climb(delta, p, q);
    }
  }

  /** Ramp-bounded bounds below the start: the first pass is the only one that can write. */
  lemma RampedBoundsSettleAtOnce(cap: seq<int>, delta: nat, bound: seq<int>)
    requires AtMost(bound, cap) && RampBounded(bound, delta)
    ensures Pass(cap, delta, bound) == Smooth(cap, delta)
    ensures RampBounded(Pass(cap, delta, bound), delta)
    ensures Smooth(Pass(cap, delta, bound), delta) == Pass(cap, delta, bound)
  {
    SmoothIsLargest(cap, delta);
    assert AtMost(bound, Smooth(cap, delta));
    SmoothFixed(Pass(cap, delta, bound), delta);
  }

  method ForwardSweep(cap: array<int>, delta: nat) returns (changed: bool)
    modifies cap
    ensures cap[..] == ForwardAll(old(cap[..]), delta)
    ensures changed <==> cap[..] != old(cap[..])
  {
    ghost var start := cap[..];
    changed := false;
    var p := 1;
    while p < cap.Length
      invariant cap.Length > 0 ==> 1 <= p <= cap.Length
      invariant forall k :: 0 <= k < p && k < cap.Length ==> cap[k] == Forward(start, delta, k)
      invariant forall k :: p <= k < cap.Length ==> cap[k] == start[k]
      invariant changed <==> cap[..] != start
    {
      if cap[p] > cap[p - 1] + delta {
        cap[p] := cap[p - 1] + delta;
        changed := true;
        assert cap[..][p] < start[p];
      }
      p := p + 1;
    }
  }

  method BackwardSweep(cap: array<int>, delta: nat) returns (changed: bool)
    modifies cap
    ensures cap[..] == BackwardAll(old(cap[..]), delta)
    ensures changed <==> cap[..] != old(cap[..])
  {
    ghost var start := cap[..];
    changed := false;
    var p := cap.Length - 2;
    while p >= 0
      invariant -2 <= p < cap.Length && (cap.Length > 0 ==> -1 <= p <= cap.Length - 2)
      invariant forall k :: 0 <= k <= p ==> cap[k] == start[k]
      invariant forall k :: p < k < cap.Length && 0 <= k ==> cap[k] == Backward(start, delta, k)
      invariant changed <==> cap[..] != start
    {
      if cap[p] > cap[p + 1] + delta {
        cap[p] := cap[p + 1] + delta;
        changed := true;
        assert cap[..][p] < start[p];
      }
      p := p - 1;
    }
  }

  method RaiseInPlace(cap: array<int>, bound: seq<int>) returns (changed: bool)
    requires |bound| == cap.Length
    modifies cap
    ensures cap[..] == Raise(old(cap[..]), bound)
    ensures changed <==> cap[..] != old(cap[..])
  {
    ghost var start := cap[..];
    changed := false;
    for p := 0 to cap.Length
      invariant forall k :: 0 <= k < p ==> cap[k] == Max(start[k], bound[k])
      invariant forall k :: p <= k < cap.Length ==> cap[k] == start[k]
      invariant changed <==> cap[..] != start
    {
      if cap[p] < bound[p] {
        cap[p] := bound[p];
        changed := true;
        assert cap[..][p] > start[p];
      }
    }
  }

  /**
   * The in-place pass over one role. `changed` reports whether any single write
   * happened, which is more than whether the values differ afterwards.
   */
  method SmoothInPlace(cap: array<int>, delta: nat, floor: seq<int>, needed: seq<int>) returns (changed: bool)
    requires |floor| == |needed| == cap.Length
    modifies cap
    ensures cap[..] == Pass(old(cap[..]), delta, Raise(floor, needed))
    ensures changed <==> !(RampBounded(old(cap[..]), delta) && AtMost(Raise(floor, needed), old(cap[..])))
  {
    ghost var start := cap[..];
    SmoothIsLargest(start, delta);
    SmoothFixed(start, delta);
    ForwardAtMost(start, delta);
    BackwardAtMost(ForwardAll(start, delta), delta);
    var forwardChanged := ForwardSweep(cap, delta);
    var backwardChanged := BackwardSweep(cap, delta);
    assert forwardChanged || backwardChanged <==> Smooth(start, delta) != start;
    var floorChanged := RaiseInPlace(cap, floor);
    ghost var floored := cap[..];
    var neededChanged := RaiseInPlace(cap, needed);
    changed := forwardChanged || backwardChanged || floorChanged || neededChanged;
    RaiseTwice(Smooth(start, delta), floor, needed);
  }

  lemma ForwardAtMost(cap: seq<int>, delta: nat)
    ensures AtMost(ForwardAll(cap, delta), cap)
  {
  }

  lemma BackwardAtMost(cap: seq<int>, delta: nat)
    ensures AtMost(BackwardAll(cap, delta), cap)
  {
  }

  lemma RaiseTwice(cap: seq<int>, floor: seq<int>, needed: seq<int>)
    requires |floor| == |needed| == |cap|
    ensures Raise(Raise(cap, floor), needed) == Raise(cap, Raise(floor, needed))
    ensures Raise(cap, floor) == cap && Raise(Raise(cap, floor), needed) == Raise(cap, floor)
       <==> AtMost(Raise(floor, needed), cap)
  {
  }
}
