/**
 * The Pomodoro timer's `tick` rule (app.py:538-560). In the source it is a
 * browser script run every 250 ms; here the state `(phase, rounds, end)` is a
 * class and each run of `tick` is one call with the current time in
 * milliseconds.
 */
module Pomodoro {
  import opened Text

  datatype Phase = Work | Break

  /** The timer as the script sees it; `Complete` once the interval is cleared. */
  datatype TimerState = Running(phase: Phase, rounds: int, end: int) | Complete

  /** What the timer line shows after a tick. */
  datatype Shown = Countdown(phase: Phase, minutes: string, seconds: string) | Finished

  /** `Math.max(0, Math.floor((end - now) / 1000))`: whole seconds left, never negative. */
  function Remaining(end: int, now: int): (diff: nat)
    ensures end - now < 0 ==> diff == 0
    ensures end - now >= 0 ==> diff * 1000 <= end - now < (diff + 1) * 1000
  {
    if (end - now) / 1000 < 0 then 0 else (end - now) / 1000
  }

  /** `String(Math.floor(diff / 60)).padStart(2, '0')` and `String(diff % 60).padStart(2, '0')`. */
  function Clock(diff: nat): (string, string) {
    (Pad2(diff / 60), Pad2(diff % 60))
  }

  /** The clock reads back as the remaining seconds: two-digit seconds below 60, minutes in front. */
  lemma {:induction false} ClockReadsBack(diff: nat)
    ensures |Clock(diff).1| == 2 && |Clock(diff).0| >= 2
    ensures ParseDecimal(Clock(diff).1) < 60
    ensures ParseDecimal(Clock(diff).0) * 60 + ParseDecimal(Clock(diff).1) == diff
  {
    ParsePad2(diff / 60);
    ParsePad2(diff % 60);
  }

  /**
   * One run of `tick`: with time left nothing changes; otherwise work turns to
   * break; a break that ends uses up a round, and the timer completes when no
   * round is left, else work starts again.
   */
  function Step(s: TimerState, now: int, workMs: int, breakMs: int): TimerState {
    match s
    case Complete => Complete
    case Running(phase, rounds, end) =>
      if Remaining(end, now) > 0 then s
      else if phase == Work then Running(Break, rounds, now + breakMs)
      else if rounds - 1 <= 0 then Complete
      else Running(Work, rounds - 1, now + workMs)
  }

  /** The timer line after a tick: the countdown of the phase that was running, or the completion message. */
  function Display(s: TimerState, now: int, workMs: int, breakMs: int): Shown {
    match s
    case Complete => Finished
    case Running(phase, _, end) =>
      if Step(s, now, workMs, breakMs) == Complete then Finished
      else
        var (m, sec) := Clock(Remaining(end, now));
        Countdown(phase, m, sec)
  }

  /** The text of the timer line (app.py:543, 552). */
  function TimerText(shown: Shown): string {
    match shown
    case Finished => "\U{2705} Pomodoro Complete \U{2014} great job!"
    case Countdown(phase, m, sec) =>
      (if phase == Work then "\U{1F9D1}\U{200D}\U{1F4BB} Work " else "\U{2615} Break ") + m + ":" + sec
  }

  /** The phases still to run: two per round left (work and break), one when a break is running. */
  function PhasesLeft(s: TimerState): nat {
    match s
    case Complete => 0
    case Running(phase, rounds, _) =>
      var r := if rounds < 1 then 1 else rounds;
      if phase == Work then 2 * r else 2 * r - 1
  }

  /** A tick with time left changes nothing; a tick at expiry ends exactly one phase. */
  lemma StepEndsOnePhase(s: TimerState, now: int, workMs: int, breakMs: int)
    requires s.Running?
    ensures Remaining(s.end, now) > 0 ==> Step(s, now, workMs, breakMs) == s
    ensures Remaining(s.end, now) == 0 ==> PhasesLeft(Step(s, now, workMs, breakMs)) == PhasesLeft(s) - 1
    ensures Remaining(s.end, now) == 0 && s.phase == Work ==>
      Step(s, now, workMs, breakMs) == Running(Break, s.rounds, now + breakMs)
  {
  }

  /** Only a completed timer has no phase left, so a timer started with `n` rounds completes after exactly `2n` expiries. */
  lemma PhasesLeftZero(s: TimerState)
    ensures PhasesLeft(s) == 0 <==> s == Complete
    ensures s.Running? && s.phase == Work && s.rounds >= 1 ==> PhasesLeft(s) == 2 * s.rounds
  {
  }

  class Timer {
    var phase: Phase
    var rounds: int
    var end: int
    var running: bool
    const workMs: int
    const breakMs: int

    function State(): TimerState
      reads this
    {
      if running then Running(phase, rounds, end) else Complete
    }

    /** "Start Pomodoro" (app.py:498-508, 561-563): a work phase ends `workMin` minutes from `now`. */
    constructor Start(workMin: int, breakMin: int, totalRounds: int, now: int)
      ensures workMs == workMin * 60 * 1000 && breakMs == breakMin * 60 * 1000
      ensures State() == Running(Work, totalRounds, now + workMs)
    {
      workMs := workMin * 60 * 1000;
      breakMs := breakMin * 60 * 1000;
      rounds := totalRounds;
      phase := Work;
      end := now + workMin * 60 * 1000;
      running := true;
    }

    /** `tick()`: updates the state as `Step` says and returns what the timer line shows. */
    method Tick(now: int) returns (shown: Shown)
      modifies this
      ensures State() == Step(old(State()), now, workMs, breakMs)
      ensures shown == Display(old(State()), now, workMs, breakMs)
    {
      if !running {
        return Finished;
      }
      var diff := Remaining(end, now);
      var (m, s) := Clock(diff);
      shown := Countdown(phase, m, s);
      if diff <= 0 {
        if phase == Work {
          phase := Break;
          end := now + breakMs;
        } else {
          rounds := rounds - 1;
          if rounds <= 0 {
            shown := Finished;
            running := false;
            return;
          }
          phase := Work;
          end := now + workMs;
        }
      }
    }
  }
}
