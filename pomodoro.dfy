/** The Pomodoro timer of PomodoroTimer.tsx: a 25-minute work phase and a
    5-minute break, alternating, driven by one-second ticks while active. */
module Pomodoro {

  const WorkMinutes: int := 25
  const BreakMinutes: int := 5

  class PomodoroTimer {
    var minutes: int
    var seconds: int
    var isActive: bool
    var isBreak: bool
    var sessionCount: nat
    /** How often `onSessionComplete` has been called. */
    ghost var completions: nat

    /** Seconds stay within 0..59, the remaining time within the phase, and
        every completed work phase has been reported once. */
    ghost predicate Valid()
      reads this
    {
      && 0 <= seconds <= 59
      && 0 <= minutes
      && Remaining() <= Total()
      && completions == sessionCount
    }

    /** `remainingSeconds`. */
    function Remaining(): int
      reads this
    {
      minutes * 60 + seconds
    }

    /** `totalSeconds`: 1500 in a work phase, 300 in a break. */
    function Total(): int
      reads this
    {
      (if isBreak then BreakMinutes else WorkMinutes) * 60
    }

    constructor()
      ensures Valid()
      ensures minutes == 25 && seconds == 0 && !isActive && !isBreak && sessionCount == 0
    {
      minutes := 25;
      seconds := 0;
      isActive := false;
      isBreak := false;
      sessionCount := 0;
      completions := 0;
    }

    /** One interval tick, which only runs while active. Returns whether
        `onSessionComplete` was called. */
    method Tick() returns (completed: bool)
      requires Valid() && isActive
      modifies this
      ensures Valid() && isActive
      ensures old(Remaining()) > 0 ==>
        Remaining() == old(Remaining()) - 1 && isBreak == old(isBreak)
        && sessionCount == old(sessionCount) && !completed
      ensures old(seconds) > 0 ==> seconds == old(seconds) - 1 && minutes == old(minutes)
      ensures old(seconds) == 0 && old(minutes) > 0 ==> minutes == old(minutes) - 1 && seconds == 59
      ensures old(Remaining()) == 0 && old(isBreak) ==>
        !isBreak && minutes == 25 && seconds == 0 && sessionCount == old(sessionCount) && !completed
      ensures old(Remaining()) == 0 && !old(isBreak) ==>
        isBreak && minutes == 5 && seconds == 0 && sessionCount == old(sessionCount) + 1 && completed
      ensures completions == old(completions) + (if completed then 1 else 0)
    {
      completed := false;
      if seconds > 0 {
        seconds := seconds - 1;
        return;
      }
      if minutes == 0 {
        if isBreak {
          isBreak := false;
          minutes := WorkMinutes;
        } else {
          isBreak := true;
          minutes := BreakMinutes;
          sessionCount := sessionCount + 1;
          completions := completions + 1;
          completed := true;
        }
      } else {
        minutes := minutes - 1;
        seconds := 59;
      }
    }

    /** `toggle`: start or pause. */
    method Toggle()
      requires Valid()
      modifies this
      ensures Valid() && isActive == !old(isActive)
      ensures minutes == old(minutes) && seconds == old(seconds)
      ensures isBreak == old(isBreak) && sessionCount == old(sessionCount)
    {
      isActive := !isActive;
    }

    /** `reset`: a paused 25:00 work phase; the session count is kept. */
    method Reset()
      requires Valid()
      modifies this
      ensures Valid()
      ensures !isActive && !isBreak && minutes == 25 && seconds == 0 && sessionCount == old(sessionCount)
    {
      isActive := false;
      isBreak := false;
      minutes := WorkMinutes;
      seconds := 0;
    }
  }

  /** Started from scratch, the timer reports its first completed work
      phase on tick 1501: 1500 ticks count 25:00 down to 0:00, and the next
      one switches to the break. */
  method FirstCompletion() returns (ticks: nat)
    ensures ticks == 1501
  {
    var timer := new PomodoroTimer();
    timer.Toggle();
    ticks := 0;
    var done := false;
    while !done
      invariant timer.Valid() && timer.isActive
      invariant !done ==> !timer.isBreak && timer.sessionCount == 0 && timer.Remaining() == 1500 - ticks
      invariant done ==> ticks == 1501
      decreases 1501 - ticks
    {
      done := timer.Tick();
      ticks := ticks + 1;
    }
  }
}
