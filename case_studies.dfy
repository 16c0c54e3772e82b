/**
 * The case-study carousel: a current slide among four and the direction of the
 * last move (1 forward, -1 backward), which picks the slide-in animation.
 */
module CaseStudies {

  import opened Cyclic

  /** The number of case studies on the page. */
  const StudyCount: int := 4

  /** The carousel's two pieces of state. */
  datatype Slide = Slide(current: int, direction: int)

  predicate InRange(s: Slide)
  {
    0 <= s.current < StudyCount && (s.direction == 1 || s.direction == -1)
  }

  /** Jump to `target`: the direction says whether the jump went forward. */
  function Navigate(s: Slide, target: int): (t: Slide)
    ensures t.current == target
    ensures t.direction == 1 <==> target > s.current
    ensures t.direction == -1 <==> target <= s.current
    ensures 0 <= target < StudyCount ==> InRange(t)
  {
    Slide(target, if target > s.current then 1 else -1)
  }

  function Next(s: Slide): (t: Slide)
    requires InRange(s)
    ensures InRange(t)
  {
    Navigate(s, Succ(s.current, StudyCount))
  }

  function Prev(s: Slide): (t: Slide)
    requires InRange(s)
    ensures InRange(t)
  {
    Navigate(s, Pred(s.current, StudyCount))
  }

  /** Next moves forward one slide, except from the last, where it wraps to the first moving backward. */
  lemma NextMoves(s: Slide)
    requires InRange(s)
    ensures s.current < StudyCount - 1 ==> Next(s) == Slide(s.current + 1, 1)
    ensures s.current == StudyCount - 1 ==> Next(s) == Slide(0, -1)
  {
  }

  /** Prev moves back one slide, except from the first, where it wraps to the last moving forward. */
  lemma PrevMoves(s: Slide)
    requires InRange(s)
    ensures s.current > 0 ==> Prev(s) == Slide(s.current - 1, -1)
    ensures s.current == 0 ==> Prev(s) == Slide(StudyCount - 1, 1)
  {
  }

  /** Prev undoes Next and Next undoes Prev, as far as the slide shown. */
  lemma NextPrevInverse(s: Slide)
    requires InRange(s)
    ensures Prev(Next(s)).current == s.current
    ensures Next(Prev(s)).current == s.current
  {
    SuccPredInverse(s.current, StudyCount);
  }

  /** `k` presses of the next button. */
  function NextTimes(s: Slide, k: nat): (t: Slide)
    requires InRange(s)
    ensures InRange(t)
    decreases k
  {
    if k == 0 then s else NextTimes(Next(s), k - 1)
  }

  lemma {:induction false} NextTimesAdvances(s: Slide, k: nat)
    requires InRange(s)
    ensures NextTimes(s, k).current == SuccN(s.current, StudyCount, k)
    decreases k
  {
    if k > 0 {
      NextTimesAdvances(Next(s), k - 1);
    }
  }

  /** Four presses come back to the same slide; the last move wrapped backward exactly when that slide is the first. */
  lemma FourNextsReturn(s: Slide)
    requires InRange(s)
    ensures NextTimes(s, 4).current == s.current
    ensures NextTimes(s, 4).direction == if s.current == 0 then -1 else 1
  {
    NextTimesAdvances(s, 4);
    FullLap(s.current, StudyCount);
    NextTimesLast(s, 3);
    NextTimesAdvances(s, 3);
    assert SuccN(s.current, StudyCount, 3) == Pred(s.current, StudyCount) by {
      SuccNIsAddition(s.current, StudyCount, 3);
    }
  }

  /** The last of k + 1 presses is one Next after the first k. */
  lemma {:induction false} NextTimesLast(s: Slide, k: nat)
    requires InRange(s)
    ensures NextTimes(s, k + 1) == Next(NextTimes(s, k))
    decreases k
  {
    if k > 0 {
      NextTimesLast(Next(s), k - 1);
    }
  }

  /** The component's state, updated in place by its handlers. */
  class Carousel {
    var current: int
    var direction: int

    function State(): Slide
      reads this
    {
      Slide(current, direction)
    }

    /** First render: the first study, moving forward. */
    constructor ()
      ensures State() == Slide(0, 1)
    {
      current := 0;
      direction := 1;
    }

    /** A dot click or either arrow. */
    method NavigateTo(target: int)
      modifies this
      ensures State() == Navigate(old(State()), target)
    {
      direction := if target > current then 1 else -1;
      current := target;
    }

    method NextSlide()
      requires InRange(State())
      modifies this
      ensures State() == Next(old(State()))
    {
      NavigateTo((current + 1) % StudyCount);
    }

    method PrevSlide()
      requires InRange(State())
      modifies this
      ensures State() == Prev(old(State()))
    {
      NavigateTo((current - 1 + StudyCount) % StudyCount);
    }

    /** The dot for study `i`. */
    method DotClick(i: int)
      requires 0 <= i < StudyCount
      modifies this
      ensures State() == Navigate(old(State()), i) && InRange(State())
    {
      NavigateTo(i);
    }
  }
}
