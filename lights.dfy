/**
 * Adaptive traffic light of the intersection (src/lights.rs).
 *
 * The light is green for one approach at a time. When the green phase runs
 * out, the controller picks the next approach from the per-lane vehicle
 * counts and shows ALL_RED for a short clearing interval; when that runs out,
 * the chosen approach turns green for a time that depends on how full its lane is.
 */
module Lights {

  /** The four green phases, named after the approach they serve, and the clearing phase. */
  datatype Light = Down | Left | Up | Right | AllRed

  /** The green phases in the order the controller enumerates them. */
  const LIGHTS: seq<Light> := [Down, Left, Up, Right]

  predicate IsGreen(l: Light) {
    l != AllRed
  }

  /** Position of a light in LIGHTS; a state not found there (ALL_RED) is taken as position 0. */
  function CurrentIndex(l: Light): (i: nat)
    ensures i < |LIGHTS|
    ensures IsGreen(l) ==> LIGHTS[i] == l
    ensures !IsGreen(l) ==> i == 0
  {
    match l
    case Down => 0
    case Left => 1
    case Up => 2
    case Right => 3
    case AllRed => 0
  }

  /** The per-lane counts laid out in the order of LIGHTS. */
  function Counts(up: nat, down: nat, left: nat, right: nat): seq<nat> {
    [down, left, up, right]
  }

  /** The count of the lane a light serves; ALL_RED serves none. */
  function CountFor(l: Light, up: nat, down: nat, left: nat, right: nat): (n: nat)
    ensures IsGreen(l) ==> n == Counts(up, down, left, right)[CurrentIndex(l)]
    ensures !IsGreen(l) ==> n == 0
  {
    match l
    case Up => up
    case Down => down
    case Left => left
    case Right => right
    case AllRed => 0
  }

  // ---------------------------------------------------------------------------
  // Selection of the next green phase
  // ---------------------------------------------------------------------------

  /** `s` without its element at position `i`. */
  function Others(s: seq<nat>, i: nat): (r: seq<nat>)
    requires i < |s|
    ensures |r| == |s| - 1
    ensures forall k :: 0 <= k < |r| ==> r[k] == (if k < i then s[k] else s[k + 1])
  {
    s[..i] + s[i + 1..]
  }

  /** The largest element of a non-empty sequence. */
  function Max(s: seq<nat>): (m: nat)
    requires |s| > 0
    ensures m in s
    ensures forall k :: 0 <= k < |s| ==> s[k] <= m
  {
    if |s| == 1 then s[0]
    else
      var rest := Max(s[1..]);
      if s[0] >= rest then s[0] else rest
  }

  /** Position of the first occurrence of `x` in `s`, or `|s|` when there is none. */
  function FirstIndex(s: seq<nat>, x: nat): (k: nat)
    ensures k <= |s|
    ensures k < |s| ==> s[k] == x
    ensures forall j :: 0 <= j < k ==> s[j] != x
  {
    if s == [] then 0
    else if s[0] == x then 0
    else 1 + FirstIndex(s[1..], x)
  }

  predicate Sorted(s: seq<nat>) {
    forall i, j :: 0 <= i < j < |s| ==> s[i] <= s[j]
  }

  /**
   * The position the controller chooses among the counts `cs` when the lane
   * at position `i` has been green: the largest count among the other lanes,
   * then the first position whose count equals it (position 0 if none did).
   */
  function Choose(cs: seq<nat>, i: nat): (k: nat)
    requires 1 < |cs| && i < |cs|
    ensures k < |cs|
  {
    var top := Max(Others(cs, i));
    var f := FirstIndex(cs, top);
    if f < |cs| then f else 0
  }

  /**
   * What the choice means: the chosen count is the maximum over the lanes
   * other than `i` and belongs to one of them, and no earlier position holds
   * it (ties go to the lowest position).
   */
  lemma {:induction false} ChooseIsBusiestOther(cs: seq<nat>, i: nat)
    requires 1 < |cs| && i < |cs|
    ensures forall j :: 0 <= j < |cs| && j != i ==> cs[j] <= cs[Choose(cs, i)]
    ensures exists j :: 0 <= j < |cs| && j != i && cs[j] == cs[Choose(cs, i)]
    ensures forall j :: 0 <= j < Choose(cs, i) ==> cs[j] != cs[Choose(cs, i)]
  {
    var o := Others(cs, i);
    var top := Max(o);
    var k :| 0 <= k < |o| && o[k] == top;
    var j := if k < i then k else k + 1;
    assert cs[j] == top && j != i;
    var f := FirstIndex(cs, top);
    assert f <= j;
    assert Choose(cs, i) == f;
    forall m | 0 <= m < |cs| && m != i
      ensures cs[m] <= top
    {
      var km := if m < i then m else m - 1;
      assert o[km] == cs[m];
    }
  }

  /** The phase the controller turns green after the green phase `state`. */
  function Priority(state: Light, up: nat, down: nat, left: nat, right: nat): (r: Light)
    ensures IsGreen(r)
  {
    LIGHTS[Choose(Counts(up, down, left, right), CurrentIndex(state))]
  }

  /**
   * The choice in terms of phases: the chosen phase's lane count is the
   * maximum over the three lanes other than the current phase's, and no
   * phase earlier in LIGHTS order has that count.
   */
  lemma PriorityIsBusiestOther(state: Light, up: nat, down: nat, left: nat, right: nat)
    ensures var cs := Counts(up, down, left, right);
            var i := CurrentIndex(state);
            var r := Priority(state, up, down, left, right);
            var n := CountFor(r, up, down, left, right);
            && (forall j :: 0 <= j < |cs| && j != i ==> cs[j] <= n)
            && (exists j :: 0 <= j < |cs| && j != i && cs[j] == n)
            && (forall j :: 0 <= j < CurrentIndex(r) ==> cs[j] != n)
  {
    var cs := Counts(up, down, left, right);
    var c := Choose(cs, CurrentIndex(state));
    ChooseIsBusiestOther(cs, CurrentIndex(state));
    assert CurrentIndex(LIGHTS[c]) == c;
  }

  /**
   * The current phase is not excluded from the choice: when every lane holds
   * the same count, the first phase in LIGHTS order (down) is chosen, even
   * when it is the phase that just ended.
   */
  lemma PriorityMayRepeatCurrent()
    ensures Priority(Down, 5, 5, 5, 5) == Down
    ensures Priority(Left, 5, 5, 5, 5) == Down
  {
    assert Others(Counts(5, 5, 5, 5), 0) == [5, 5, 5];
    assert Others(Counts(5, 5, 5, 5), 1) == [5, 5, 5];
  }

  /** Exchanges two elements of `a`. */
  method Swap(a: array<nat>, i: nat, j: nat)
    requires i < a.Length && j < a.Length
    modifies a
    ensures a[..] == old(a[..])[i := old(a[j])][j := old(a[i])]
    ensures multiset(a[..]) == multiset(old(a[..]))
  {
    a[i], a[j] := a[j], a[i];
  }

  /** Sorts `a` in place in ascending order (the `sort` of a vector of counts). */
  method SortInPlace(a: array<nat>)
    modifies a
    ensures Sorted(a[..])
    ensures multiset(a[..]) == multiset(old(a[..]))
  {
    var i := 0;
    while i < a.Length
      invariant 0 <= i <= a.Length
      invariant forall p, q :: 0 <= p < q < i ==> a[p] <= a[q]
      invariant multiset(a[..]) == multiset(old(a[..]))
    {
      var j := i;
      while j > 0 && a[j - 1] > a[j]
        invariant 0 <= j <= i
        invariant forall p, q :: 0 <= p < q <= i && q != j ==> a[p] <= a[q]
        invariant 0 < j < i ==> a[j - 1] <= a[j + 1]
        invariant multiset(a[..]) == multiset(old(a[..]))
      {
        Swap(a, j - 1, j);
        j := j - 1;
      }
      i := i + 1;
    }
  }

  /** The counts other than the one at `currentIdx`, pushed in order into a new vector. */
  method FilterCounts(counts: seq<nat>, currentIdx: nat) returns (filtered: array<nat>)
    requires 0 < |counts| && currentIdx < |counts|
    ensures fresh(filtered)
    ensures filtered[..] == Others(counts, currentIdx)
  {
    filtered := new nat[|counts| - 1];
    var len := 0;
    for i := 0 to |counts|
      invariant len == if i <= currentIdx then i else i - 1
      invariant forall k :: 0 <= k < len ==> filtered[k] == counts[if k < currentIdx then k else k + 1]
    {
      if i == currentIdx {
        continue;
      } else {
        filtered[len] := counts[i];
        len := len + 1;
      }
    }
  }

  /** After sorting a permutation of `s`, the last element is the maximum of `s`. */
  lemma SortedLastIsMax(s: seq<nat>, t: seq<nat>)
    requires |t| > 0 && Sorted(t)
    requires multiset(t) == multiset(s)
    ensures |s| > 0 && t[|t| - 1] == Max(s)
  {
    assert t[0] in multiset(s);
    var last := t[|t| - 1];
    assert last in multiset(t);
    assert last in s;
    var m := Max(s);
    assert m in multiset(t);
    var k :| 0 <= k < |t| && t[k] == m;
    assert t[k] <= last;
  }

  // ---------------------------------------------------------------------------
  // The controller as a value, and runs of it
  // ---------------------------------------------------------------------------

  /** The fields of a traffic light. */
  datatype Controller = Controller(state: Light, nextState: Light, timer: real, clearing: bool)

  /** The inputs of one call of the update: elapsed time, per-lane counts and lane capacity. */
  datatype Frame = Frame(dt: real, up: nat, down: nat, left: nat, right: nat, capacity: nat)

  /** The light a freshly constructed controller shows. */
  const Initial: Controller := Controller(Down, Left, 1.0, false)

  /**
   * The controller's invariant: it is clearing exactly when it shows ALL_RED,
   * otherwise exactly one approach is green; the pending phase is always green;
   * and the timer is positive between updates.
   */
  predicate Inv(c: Controller) {
    && (c.clearing <==> c.state == AllRed)
    && IsGreen(c.nextState)
    && c.timer > 0.0
  }

  /** The timer after the countdown: decremented only while it is positive. */
  function Countdown(timer: real, dt: real): real {
    if timer > 0.0 then timer - dt else timer
  }

  /**
   * Length of a green phase from the lane's occupancy ratio count / capacity:
   * 2.0 above 0.4, 1.0 for any other non-empty lane, 0.5 for an empty lane.
   * With capacity 0 the floating-point ratio is +infinity (count > 0) or NaN
   * (count = 0), which the comparison with 0.4 treats as above and not above.
   */
  function GreenDuration(count: nat, capacity: nat): (t: real)
    ensures t == 2.0 || t == 1.0 || t == 0.5
    ensures t == 0.5 <==> count == 0
    ensures capacity > 0 ==> (t == 2.0 <==> 5 * count > 2 * capacity)
    ensures capacity == 0 ==> (t == 2.0 <==> count > 0)
  {
    if capacity > 0 then
      var ratio := (count as real) / (capacity as real);
      assert ratio > 0.4 <==> 5 * count > 2 * capacity by {
        assert ratio * (capacity as real) == count as real;
        RatioAbove(ratio, capacity as real, count as real);
      }
      if ratio > 0.4 then 2.0 else if count > 0 then 1.0 else 0.5
    else if count > 0 then 2.0
    else 0.5
  }

  /** For a positive denominator, r = n / d lies above 0.4 exactly when 5n > 2d. */
  lemma RatioAbove(r: real, d: real, n: real)
    requires d > 0.0 && r * d == n
    ensures r > 0.4 <==> 5.0 * n > 2.0 * d
  {
    if r > 0.4 {
      assert r * d > 0.4 * d;
    } else {
      assert r * d <= 0.4 * d;
    }
  }

  /** One update of the controller, as a function of its fields and the frame. */
  function Step(c: Controller, f: Frame): (r: Controller)
    ensures Inv(c) ==> Inv(r)
    // no direct change from one green phase to another
    ensures Inv(c) && IsGreen(c.state) && IsGreen(r.state) ==> r.state == c.state
    // a green phase that runs out: ALL_RED for 0.5 with the chosen next phase pending
    ensures !c.clearing && Countdown(c.timer, f.dt) <= 0.0 ==>
              && r.state == AllRed && r.clearing && r.timer == 0.5
              && r.nextState == Priority(c.state, f.up, f.down, f.left, f.right)
    // a clearing phase that runs out: the pending phase turns green for its lane's duration
    ensures c.clearing && Countdown(c.timer, f.dt) <= 0.0 ==>
              && r.state == c.nextState && r.nextState == c.nextState && !r.clearing
              && r.timer == GreenDuration(CountFor(c.nextState, f.up, f.down, f.left, f.right), f.capacity)
    // nothing but the timer changes until it runs out
    ensures Countdown(c.timer, f.dt) > 0.0 ==> r == c.(timer := c.timer - f.dt)
  {
    var t := Countdown(c.timer, f.dt);
    if c.clearing then
      if t <= 0.0 then
        var count := CountFor(c.nextState, f.up, f.down, f.left, f.right);
        Controller(c.nextState, c.nextState, GreenDuration(count, f.capacity), false)
      else c.(timer := t)
    else if t <= 0.0 then
      Controller(AllRed, Priority(c.state, f.up, f.down, f.left, f.right), 0.5, true)
    else c.(timer := t)
  }

  /** The controllers seen over a sequence of frames, starting with `c`. */
  function Run(c: Controller, fs: seq<Frame>): (tr: seq<Controller>)
    ensures |tr| == |fs| + 1 && tr[0] == c
    ensures forall i :: 0 <= i < |fs| ==> tr[i + 1] == Step(tr[i], fs[i])
    decreases |fs|
  {
    if fs == [] then [c]
    else
      var rest := Run(Step(c, fs[0]), fs[1..]);
      assert forall i :: 1 <= i < |fs| ==> rest[i] == Step(rest[i - 1], fs[i]);
      [c] + rest
  }

  /** Every controller of a run from a valid one is valid. */
  lemma {:induction false} RunKeepsInv(c: Controller, fs: seq<Frame>, i: nat)
    requires Inv(c) && i <= |fs|
    ensures Inv(Run(c, fs)[i])
  {
    if i > 0 {
      RunKeepsInv(c, fs, i - 1);
    }
  }

  /**
   * Any change from one green phase to a different one passes through the
   * clearing phase: between two controllers of a run that show different
   * green phases, some controller shows ALL_RED.
   */
  lemma {:induction false} GreenChangePassesAllRed(c: Controller, fs: seq<Frame>, i: nat, j: nat)
    requires Inv(c) && i < j <= |fs|
    requires IsGreen(Run(c, fs)[i].state) && IsGreen(Run(c, fs)[j].state)
    requires Run(c, fs)[i].state != Run(c, fs)[j].state
    ensures exists k :: i < k < j && Run(c, fs)[k].state == AllRed
    decreases j - i
  {
    var tr := Run(c, fs);
    RunKeepsInv(c, fs, i);
    assert tr[i + 1] == Step(tr[i], fs[i]);
    if tr[i + 1].state == AllRed {
      assert i + 1 < j;
    } else {
      GreenChangePassesAllRed(c, fs, i + 1, j);
    }
  }

  /** Every run of a freshly constructed controller keeps the invariant. */
  lemma {:induction false} InitialRunsKeepInv(fs: seq<Frame>, i: nat)
    requires i <= |fs|
    ensures Inv(Run(Initial, fs)[i])
  {
    RunKeepsInv(Initial, fs, i);
  }

  // ---------------------------------------------------------------------------
  // The traffic light object
  // ---------------------------------------------------------------------------

  class TrafficLight {
    var state: Light
    var nextState: Light
    var timer: real
    var clearing: bool

    /** The fields as a value. */
    function Snapshot(): Controller
      reads this
    {
      Controller(state, nextState, timer, clearing)
    }

    predicate Valid()
      reads this
    {
      Inv(Snapshot())
    }

    constructor ()
      ensures state == Down && nextState == Left && timer == 1.0 && !clearing
      ensures Snapshot() == Initial && Valid()
    {
      state := Down;
      nextState := Left;
      timer := 1.0;
      clearing := false;
    }

    /** One frame of the light, given the per-lane counts and the lane capacity. */
    method UpdateWithCongestion(dt: real, up: nat, down: nat, left: nat, right: nat, capacity: nat)
      modifies this
      ensures Snapshot() == Step(old(Snapshot()), Frame(dt, up, down, left, right, capacity))
      ensures old(Valid()) ==> Valid()
    {
      if timer > 0.0 {
        timer := timer - dt;
      }

      if clearing {
        if timer <= 0.0 {
          state := nextState;
          clearing := false;
          var count := CountFor(state, up, down, left, right);
          timer := GreenDuration(count, capacity);
        }
      } else {
        if timer <= 0.0 {
          nextState := CalculatePriority(up, down, left, right);
          state := AllRed;
          clearing := true;
          timer := 0.5;
        }
      }
    }

    /** The phase to turn green after the current one (see Priority). */
    method CalculatePriority(up: nat, down: nat, left: nat, right: nat) returns (r: Light)
      ensures r == Priority(state, up, down, left, right)
    {
      var counts := Counts(up, down, left, right);
      var currentIdx := CurrentIndex(state);

      var filtered := FilterCounts(counts, currentIdx);
      ghost var unsorted := filtered[..];
      SortInPlace(filtered);
      SortedLastIsMax(unsorted, filtered[..]);
      var top := filtered[filtered.Length - 1];
      assert top == Max(Others(counts, currentIdx));

      var nextIdx := 0;
      var i := 0;
      while i < |counts|
        invariant 0 <= i <= |counts|
        invariant nextIdx == 0
        invariant forall k :: 0 <= k < i ==> counts[k] != top
      {
        if counts[i] == top {
          nextIdx := i;
          assert nextIdx == FirstIndex(counts, top);
          break;
        }
        i := i + 1;
      }
      assert nextIdx == Choose(counts, currentIdx);
      r := LIGHTS[nextIdx];
    }

    /** The phase shown; ALL_RED exactly while the light is clearing. */
    function GetState(): (r: Light)
      reads this
      ensures r == state
      ensures Valid() ==> (r == AllRed <==> clearing)
    {
      state
    }
  }
}
