/**
 * The animated counter shared by the dashboard and the statistics section:
 * once the number scrolls into view, an accumulator grows by target/frames on
 * every tick and the display shows its floor, until the accumulator reaches the
 * target, when the display shows the target itself and the timer stops.
 */
module Counting {

  import opened Arith

  /** The tick period in milliseconds (sixty ticks a second); the timer itself is outside the model. */
  const TickMillis: real := 1000.0 / 60.0

  /** The accumulator, the displayed number, and whether the timer is still running. */
  datatype CounterState = CounterState(start: real, count: int, running: bool)

  /** Before the number is first in view: 0 shown, no timer. */
  const Idle: CounterState := CounterState(0.0, 0, false)

  /** The moment the number comes into view: the accumulator restarts at 0 and the timer starts. */
  const Started: CounterState := CounterState(0.0, 0, true)

  /** The increment per tick: the target shared out over the frames, so of the target's sign. */
  function StepSize(target: int, frames: real): (step: real)
    requires frames > 0.0
    ensures target > 0 ==> step > 0.0
    ensures target >= 0 ==> step >= 0.0
    ensures target == 0 ==> step == 0.0
    ensures target < 0 ==> step < 0.0
  {
    DivSign(target as real, frames);
    target as real / frames
  }

  /** One tick of the timer. */
  function TickState(s: CounterState, target: int, step: real): (r: CounterState)
    ensures !s.running ==> r == s
    ensures s.running ==> r.start == s.start + step
    ensures s.running ==> (r.running <==> s.start + step < target as real)
  {
    if !s.running then s
    else
      var start := s.start + step;
      if start >= target as real then CounterState(start, target, false)
      else CounterState(start, start.Floor, true)
  }

  /** What holds of a counter with a non-negative target at every moment. */
  ghost predicate Inv(s: CounterState, target: int)
  {
    0.0 <= s.start && 0 <= s.count <= target &&
    (s.running ==> s.count == s.start.Floor)
  }

  lemma InitialInv(target: int)
    requires target >= 0
    ensures Inv(Idle, target) && Inv(Started, target)
  {
  }

  /** A tick keeps the invariant, so the shown number never exceeds the target, and it never lowers the shown number. */
  lemma TickKeepsInv(s: CounterState, target: int, step: real)
    requires target >= 0 && step >= 0.0
    requires Inv(s, target)
    ensures Inv(TickState(s, target, step), target)
    ensures s.count <= TickState(s, target, step).count <= target
  {
    if s.running {
      var start := s.start + step;
      if start < target as real {
        assert s.start.Floor <= start.Floor by {
          FloorMonotone(s.start, start);
        }
      }
    }
  }

  lemma FloorMonotone(a: real, b: real)
    requires a <= b
    ensures a.Floor <= b.Floor
  {
  }

  /** Once the timer has stopped, further ticks change nothing. */
  lemma StoppedStaysStopped(s: CounterState, target: int, step: real, k: nat)
    requires !s.running
    ensures Ticks(s, target, step, k) == s
    decreases k
  {
    if k > 0 {
      StoppedStaysStopped(s, target, step, k - 1);
    }
  }

  /** `k` ticks in a row. */
  function Ticks(s: CounterState, target: int, step: real, k: nat): CounterState
    decreases k
  {
    if k == 0 then s else TickState(Ticks(s, target, step, k - 1), target, step)
  }

  /** The accumulator after `k` steps of size `step`, added one at a time. */
  function Accumulated(step: real, k: nat): real
    decreases k
  {
    if k == 0 then 0.0 else Accumulated(step, k - 1) + step
  }

  /** Adding the step k times is multiplying it by k. */
  lemma {:induction false} AccumulatedIsMultiple(step: real, k: nat)
    ensures Accumulated(step, k) == k as real * step
    decreases k
  {
    if k > 0 {
      AccumulatedIsMultiple(step, k - 1);
      NextMultiple(k, step);
    }
  }

  /** While the accumulator stays short of the target the counter keeps counting and shows its floor. */
  lemma {:induction false} CountingBefore(target: int, step: real, k: nat)
    requires step >= 0.0 && Accumulated(step, k) < target as real
    ensures Ticks(Started, target, step, k) == CounterState(Accumulated(step, k), Accumulated(step, k).Floor, true)
    decreases k
  {
    if k > 0 {
      var x := Accumulated(step, k - 1);
      CountingBefore(target, step, k - 1);
      CountingTick(x, step, target);
    }
  }

  /** Fewer than `frames` steps of target/frames stay short of a positive target; `frames` steps reach it. */
  lemma StepsBelowTarget(target: int, frames: nat, k: nat)
    requires target > 0 && k < frames
    ensures Accumulated(StepSize(target, frames as real), k) < target as real
    ensures Accumulated(StepSize(target, frames as real), frames) == target as real
  {
    var step := StepSize(target, frames as real);
    StepTimesFrames(target, frames);
    AccumulatedIsMultiple(step, k);
    AccumulatedIsMultiple(step, frames);
    MulLt(k as real, frames as real, step);
    LtEq(k as real * step, frames as real * step, target as real);
  }

  lemma LtEq(a: real, b: real, c: real)
    requires a < b && b == c
    ensures a < c
  {
  }

  /** A running tick that stays short of the target shows the floor of the new accumulator. */
  lemma CountingTick(x: real, step: real, target: int)
    requires x + step < target as real
    ensures TickState(CounterState(x, x.Floor, true), target, step) == CounterState(x + step, (x + step).Floor, true)
  {
  }

  /** A running tick that reaches the target shows the target and stops. */
  lemma FinalTick(x: real, step: real, target: int)
    requires x + step >= target as real
    ensures TickState(CounterState(x, x.Floor, true), target, step) == CounterState(x + step, target, false)
  {
  }

  /** The step times the number of frames is the target. */
  lemma StepTimesFrames(target: int, frames: nat)
    requires frames >= 1
    ensures frames as real * StepSize(target, frames as real) == target as real
  {
  }

  /** With exact arithmetic and a whole number of frames, the counter shows exactly the target and stops at tick `frames`. */
  lemma ReachesTarget(target: int, frames: nat)
    requires target >= 0 && frames >= 1
    ensures var s := Ticks(Started, target, StepSize(target, frames as real), frames);
      s.count == target && !s.running
  {
    var step := StepSize(target, frames as real);
    if target == 0 {
      assert Ticks(Started, target, step, 1) == CounterState(0.0, 0, false);
      StoppedStaysStopped(Ticks(Started, target, step, 1), target, step, frames - 1);
      TicksSplit(Started, target, step, 1, frames - 1);
    } else {
      StepsBelowTarget(target, frames, frames - 1);
      CountingBefore(target, step, frames - 1);
      FinalTick(Accumulated(step, frames - 1), step, target);
    }
  }

  /** With a positive target the counter is still running at every tick before `frames`. */
  lemma RunningBefore(target: int, frames: nat, k: nat)
    requires target > 0 && k < frames
    ensures Ticks(Started, target, StepSize(target, frames as real), k).running
  {
    var step := StepSize(target, frames as real);
    StepsBelowTarget(target, frames, k);
    CountingBefore(target, step, k);
  }

  /** Ticking j then k times is ticking j + k times. */
  lemma {:induction false} TicksSplit(s: CounterState, target: int, step: real, j: nat, k: nat)
    ensures Ticks(Ticks(s, target, step, j), target, step, k) == Ticks(s, target, step, j + k)
    decreases k
  {
    if k > 0 {
      TicksSplit(s, target, step, j, k - 1);
    }
  }

  /** One counter on the page: its target, the number of ticks its animation is planned over, and its state. */
  class AnimatedCounter {
    const target: int
    const frames: real
    var state: CounterState
    var inView: bool

    ghost predicate Valid()
      reads this
    {
      frames > 0.0 &&
      (!inView ==> state == Idle) &&
      (target >= 0 ==> Inv(state, target))
    }

    constructor (target: int, frames: real)
      requires frames > 0.0
      ensures Valid() && this.target == target && this.frames == frames
      ensures state == Idle && !inView
    {
      this.target := target;
      this.frames := frames;
      state := Idle;
      inView := false;
    }

    /** The number scrolls into view; only the first time starts the timer. */
    method EnterView()
      requires Valid()
      modifies this
      ensures Valid() && inView
      ensures !old(inView) ==> state == Started
      ensures old(inView) ==> state == old(state)
    {
      if !inView {
        inView := true;
        state := Started;
      }
    }

    /** One timer tick; the shown number never goes down and never passes a non-negative target. */
    method Tick()
      requires Valid()
      modifies this
      ensures Valid() && inView == old(inView)
      ensures state == TickState(old(state), target, StepSize(target, frames))
      ensures !inView ==> state == old(state) == Idle
      ensures target >= 0 ==> old(state.count) <= state.count <= target
    {
      if target >= 0 {
        TickKeepsInv(state, target, StepSize(target, frames));
      }
      state := TickState(state, target, StepSize(target, frames));
    }
  }
}
