/**
 * The statistics section: four counters built on the shared animated counter,
 * each planned over `duration` seconds at sixty ticks a second (two seconds
 * unless told otherwise).
 */
module Stats {

  import Counting

  /** The duration used when none is given, in seconds. */
  const DefaultDuration: real := 2.0

  /** The figures of the four statistics, in display order. */
  const StatTargets: seq<int> := [10, 50, 4, 98]

  /** The number of ticks the count-up is planned over. */
  function Frames(duration: real): (f: real)
    requires duration > 0.0
    ensures f > 0.0
  {
    duration * 60.0
  }

  /** The default duration plans the count-up over 120 ticks, the same step the dashboard counters use. */
  lemma DefaultMatchesDashboard(target: int)
    ensures Frames(DefaultDuration) == 120.0
    ensures Counting.StepSize(target, Frames(DefaultDuration)) == Counting.StepSize(target, 120.0)
  {
  }

  /** A counter for one statistic: nothing shown but 0 until it comes into view. */
  method NewStatCounter(target: int, duration: real) returns (c: Counting.AnimatedCounter)
    requires duration > 0.0
    ensures fresh(c) && c.Valid()
    ensures c.target == target && c.frames == Frames(duration)
    ensures c.state == Counting.Idle && !c.inView
  {
    c := new Counting.AnimatedCounter(target, Frames(duration));
  }

  /** With exact arithmetic and a whole number of ticks `frames` == duration * 60, the counter shows its figure at tick `frames`, stopped, and runs until then. */
  lemma StatsCounterFinishes(target: int, duration: real, frames: nat, k: nat)
    requires target >= 0 && duration > 0.0 && frames as real == Frames(duration)
    ensures var step := Counting.StepSize(target, Frames(duration));
      var s := Counting.Ticks(Counting.Started, target, step, frames);
      s.count == target && !s.running
    ensures target > 0 && k < frames ==>
      Counting.Ticks(Counting.Started, target, Counting.StepSize(target, Frames(duration)), k).running
  {
    assert frames >= 1 by {
      assert frames as real > 0.0;
    }
    Counting.ReachesTarget(target, frames);
    if target > 0 && k < frames {
      Counting.RunningBefore(target, frames, k);
    }
  }

  /** The four statistics with the default duration all end on their figures after 120 ticks. */
  lemma DefaultStatsFinish(i: int)
    requires 0 <= i < |StatTargets|
    ensures var target := StatTargets[i];
      var s := Counting.Ticks(Counting.Started, target, Counting.StepSize(target, Frames(DefaultDuration)), 120);
      s.count == target && !s.running
  {
    StatsCounterFinishes(StatTargets[i], DefaultDuration, 120, 0);
  }
}
