/**
 * The 4-7-8 breathing guide (`BreathingExercise`): a start/stop toggle and a
 * one-second tick that counts the current phase down and, when it runs out,
 * enters the next phase of the Inhale -> Hold -> Exhale cycle.
 *
 * `State`, `Toggle` and `Tick` are the specification; the class
 * `BreathingExercise` holds the component's three state cells and its methods
 * follow the handlers step by step.
 */
module Breathing {

  datatype Phase = Ready | Inhale | Hold | Exhale

  /** Seconds assigned by `startPhase` when a phase is entered; any other phase gets 0. */
  function Duration(p: Phase): nat {
    match p
    case Inhale => 4
    case Hold => 7
    case Exhale => 8
    case Ready => 0
  }

  /** The phase the tick updater enters when the counter runs out; from Ready it enters none. */
  function Next(p: Phase): Phase {
    match p
    case Inhale => Hold
    case Hold => Exhale
    case Exhale => Inhale
    case Ready => Ready
  }

  /** The successor is a 3-cycle over the active phases: no active phase maps to itself or to Ready. */
  lemma NextIsThreeCycle(p: Phase)
    requires p != Ready
    ensures Next(p) != Ready && Next(p) != p && Next(Next(p)) != p
    ensures Next(Next(Next(p))) == p
    ensures Duration(p) + Duration(Next(p)) + Duration(Next(Next(p))) == 19
  {
  }

  /** The three state cells of the component. */
  datatype State = State(phase: Phase, isActive: bool, timeLeft: int)

  /** The state on mount and after stopping. */
  const Idle := State(Ready, false, 0)

  /** The state right after `startPhase(p)` while the exercise runs. */
  function Enter(p: Phase): State {
    State(p, true, Duration(p))
  }

  /** The states the component can be in: idle, or running an active phase with 1..Duration seconds left. */
  ghost predicate ValidState(s: State) {
    if s.isActive then s.phase != Ready && 1 <= s.timeLeft <= Duration(s.phase) else s == Idle
  }

  /** `startBreathing`: stops a running exercise, or starts one at Inhale. */
  function Toggle(s: State): (r: State)
    ensures ValidState(r)
    ensures r.isActive == !s.isActive
    ensures !r.isActive ==> r.phase == Ready && r.timeLeft == 0
    ensures r.isActive ==> r.phase == Inhale && r.timeLeft == 4
  {
    if s.isActive then Idle else Enter(Inhale)
  }

  /**
   * One interval tick: the updater counts down while more than one second is
   * left; otherwise it returns 0 and `startPhase` requests the successor phase
   * and its duration. The model takes the order in which the requested
   * duration is applied after the returned 0.
   */
  function Tick(s: State): (r: State)
    ensures r.isActive == s.isActive
    ensures ValidState(s) && s.isActive ==> ValidState(r)
  {
    if s.timeLeft <= 1 then State(Next(s.phase), s.isActive, Duration(Next(s.phase)))
    else s.(timeLeft := s.timeLeft - 1)
  }

  /** A tick either counts down by exactly one within the phase, or moves to the successor with its full duration. */
  lemma TickCountsDownOrAdvances(s: State)
    requires ValidState(s) && s.isActive
    ensures ValidState(Tick(s))
    ensures s.timeLeft > 1 ==> Tick(s) == s.(timeLeft := s.timeLeft - 1)
    ensures s.timeLeft <= 1 ==> Tick(s) == Enter(Next(s.phase))
  {
  }

  /** n consecutive ticks. */
  function Ticks(s: State, n: nat): State
    decreases n
  {
    if n == 0 then s else Ticks(Tick(s), n - 1)
  }

  lemma {:induction false} TicksAdd(s: State, a: nat, b: nat)
    ensures Ticks(s, a + b) == Ticks(Ticks(s, a), b)
    decreases a
  {
    if a > 0 {
      TicksAdd(Tick(s), a - 1, b);
    }
  }

  /** Fewer ticks than the seconds left only count down, staying in the same phase. */
  lemma {:induction false} CountsDown(s: State, k: nat)
    requires ValidState(s) && s.isActive && k < s.timeLeft
    ensures Ticks(s, k) == s.(timeLeft := s.timeLeft - k)
    decreases k
  {
    if k > 0 {
      CountsDown(Tick(s), k - 1);
    }
  }

  /** After exactly as many ticks as seconds left, the successor phase starts with its full duration. */
  lemma {:induction false} RunsOut(s: State)
    requires ValidState(s) && s.isActive
    ensures Ticks(s, s.timeLeft) == Enter(Next(s.phase))
  {
    var t := s.timeLeft;
    CountsDown(s, t - 1);
    TicksAdd(s, t - 1, 1);
  }

  /** A running exercise repeats itself every 4 + 7 + 8 = 19 ticks. */
  lemma {:induction false} CycleIsNineteenTicks(s: State)
    requires ValidState(s) && s.isActive
    ensures Ticks(s, 19) == s
  {
    var p, t := s.phase, s.timeLeft;
    var q := Next(p);
    var q' := Next(q);
    NextIsThreeCycle(p);
    RunsOut(s);
    RunsOut(Enter(q));
    RunsOut(Enter(q'));
    CountsDown(Enter(p), Duration(p) - t);
    TicksAdd(s, t, Duration(q));
    TicksAdd(s, t + Duration(q), Duration(q'));
    TicksAdd(s, t + Duration(q) + Duration(q'), Duration(p) - t);
  }

  /** The 4-7-8 schedule: the state shown k seconds after starting, for one full cycle. */
  function Scheduled(k: nat): State
    requires k < 19
  {
    if k < 4 then State(Inhale, true, 4 - k)
    else if k < 11 then State(Hold, true, 11 - k)
    else State(Exhale, true, 19 - k)
  }

  /** Starting the exercise and ticking k times follows the 4-7-8 schedule. */
  lemma {:induction false} FollowsSchedule(k: nat)
    requires k < 19
    ensures Ticks(Toggle(Idle), k) == Scheduled(k)
  {
    var start := Enter(Inhale);
    if k < 4 {
      CountsDown(start, k);
    } else if k < 11 {
      RunsOut(start);
      TicksAdd(start, 4, k - 4);
      CountsDown(Enter(Hold), k - 4);
    } else {
      RunsOut(start);
      RunsOut(Enter(Hold));
      TicksAdd(start, 4, 7);
      TicksAdd(start, 11, k - 11);
      CountsDown(Enter(Exhale), k - 11);
    }
  }

  /** Stopping always returns to the mount state, so start-then-stop is a round trip. */
  lemma StopRestoresIdle(s: State)
    requires ValidState(s) && s.isActive
    ensures Toggle(s) == Idle
    ensures Toggle(Toggle(Idle)) == Idle
  {
  }

  /** The component's state cells (`phase`, `isActive`, `timeLeft`). */
  class BreathingExercise {
    var phase: Phase
    var isActive: bool
    var timeLeft: int

    function Current(): State
      reads this
    {
      State(phase, isActive, timeLeft)
    }

    ghost predicate Valid()
      reads this
    {
      ValidState(Current())
    }

    /** Mount: `Ready`, inactive, 0 seconds. */
    constructor ()
      ensures Valid() && Current() == Idle
    {
      phase, isActive, timeLeft := Ready, false, 0;
    }

    /** `startPhase`: set the phase and the duration that phase is given. */
    method StartPhase(newPhase: Phase)
      modifies this
      ensures phase == newPhase && isActive == old(isActive)
      ensures timeLeft == Duration(newPhase)
    {
      phase := newPhase;
      var duration := 0;
      if newPhase == Inhale { duration := 4; }
      if newPhase == Hold { duration := 7; }
      if newPhase == Exhale { duration := 8; }
      timeLeft := duration;
    }

    /** `startBreathing`: the tap on the circle. */
    method StartBreathing()
      requires Valid()
      modifies this
      ensures Valid() && Current() == Toggle(old(Current()))
    {
      if isActive {
        isActive := false;
        phase := Ready;
        timeLeft := 0;
        return;
      }
      isActive := true;
      StartPhase(Inhale);
    }

    /** The interval callback, which runs only while the exercise is active. */
    method OnTick()
      requires Valid() && isActive
      modifies this
      ensures Valid() && Current() == Tick(old(Current()))
    {
      var prev := timeLeft;
      if prev <= 1 {
        var current := phase;
        timeLeft := 0;
        if current == Inhale {
          StartPhase(Hold);
        } else if current == Hold {
          StartPhase(Exhale);
        } else if current == Exhale {
          StartPhase(Inhale);
        }
        return;
      }
      timeLeft := prev - 1;
    }
  }
}
