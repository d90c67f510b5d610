/**
 * The first-run onboarding overlay (a four-card stepper whose last "Next"
 * closes it and records that it was seen) and the sheep tap counter.
 */
module Counters {

  /** The number of onboarding cards. */
  const StepCount: nat := 4

  /**
   * The app's `showOnboarding` state, the stored "onboarding seen" flag and the
   * overlay's `step` state.
   */
  class Onboarding {
    var showOnboarding: bool
    var seen: bool
    var step: nat

    ghost predicate Valid()
      reads this
    {
      step < StepCount && (seen ==> !showOnboarding)
    }

    /** Mount: the overlay shows when the stored flag is absent. */
    constructor (storedSeen: bool)
      ensures Valid() && step == 0 && seen == storedSeen && showOnboarding == !storedSeen
    {
      seen := storedSeen;
      showOnboarding := !storedSeen;
      step := 0;
    }

    /** `closeOnboarding` (the Skip button, and Next on the last card). */
    method Close()
      requires Valid()
      modifies this
      ensures Valid() && seen && !showOnboarding && step == old(step)
    {
      seen := true;
      showOnboarding := false;
    }

    /** `handleNext`: the next card, or close on the last one. */
    method HandleNext()
      requires Valid()
      modifies this
      ensures Valid()
      ensures old(step) < StepCount - 1 ==> step == old(step) + 1 && unchanged(this`seen, this`showOnboarding)
      ensures old(step) == StepCount - 1 ==> step == old(step) && seen && !showOnboarding
    {
      if step < StepCount - 1 {
        step := step + 1;
      } else {
        Close();
      }
    }
  }

  /**
   * A first-time user who presses Next on every card sees the overlay through
   * the first three presses and has it closed, and recorded as seen, by the fourth.
   */
  method PressNextThroughAllCards() returns (shownAfterThree: bool, shownAfterFour: bool, seenAfterFour: bool)
    ensures shownAfterThree && !shownAfterFour && seenAfterFour
  {
    var o := new Onboarding(false);
    o.HandleNext();
    o.HandleNext();
    o.HandleNext();
    shownAfterThree := o.showOnboarding;
    o.HandleNext();
    shownAfterFour, seenAfterFour := o.showOnboarding, o.seen;
  }

  /** The sheep counter's `count` and `animating` states. */
  class SheepCounter {
    var count: nat
    var animating: bool

    constructor ()
      ensures count == 0 && !animating
    {
      count, animating := 0, false;
    }

    /** `increment`: one more sheep, and the jump animation starts. */
    method Increment()
      modifies this
      ensures count == old(count) + 1 && animating
    {
      count := count + 1;
      animating := true;
    }

    /** The timeout 500 ms after a tap ends the animation; the count is kept. */
    method EndAnimation()
      modifies this
      ensures count == old(count) && !animating
    {
      animating := false;
    }
  }
}
