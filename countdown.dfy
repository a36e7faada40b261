/**
 * The countdown that the timer and the pomodoro screens both run: a number
 * of seconds left and a running flag. While it runs with time left, each
 * step takes one second off; a step that finds it running at zero stops it
 * and is the one step that notifies (plays the finishing sound). A paused
 * countdown does not move.
 */
module Countdown {
  datatype State = State(seconds: nat, running: bool)

  /**
   * One step of the screen's effect: the next state, and whether this step
   * is the finishing one. A running countdown with time left loses one
   * second; a running countdown at zero stops and notifies; otherwise the
   * state stays as it is.
   */
  function Next(c: State): (State, bool)
  {
    if c.running && c.seconds > 0 then (State(c.seconds - 1, true), false)
    else if c.seconds == 0 && c.running then (State(0, false), true)
    else (c, false)
  }

  /** `k` steps from `c`: the state reached and how many of the steps notified. */
  function Run(c: State, k: nat): (State, nat)
    decreases k
  {
    if k == 0 then (c, 0)
    else
      var (d, finished) := Next(c);
      var (e, notified) := Run(d, k - 1);
      (e, notified + (if finished then 1 else 0))
  }

  /**
   * Each step either leaves the seconds alone or takes off exactly one; it
   * notifies exactly when it finds the countdown running at zero, and then
   * the countdown is stopped at zero.
   */
  lemma NextStep(c: State)
    ensures Next(c).0.seconds == c.seconds || Next(c).0.seconds == c.seconds - 1
    ensures c.running && c.seconds > 0 ==> Next(c).0 == State(c.seconds - 1, true)
    ensures Next(c).1 <==> c.running && c.seconds == 0
    ensures Next(c).1 ==> Next(c).0 == State(0, false)
    ensures !c.running ==> Next(c) == (c, false)
  {
  }

  /** A paused countdown stays where it is and never notifies. */
  lemma {:induction false} PausedStays(c: State, k: nat)
    requires !c.running
    ensures Run(c, k) == (c, 0)
    decreases k
  {
    if k > 0 {
      PausedStays(c, k - 1);
    }
  }

  /** The seconds left never grow, whatever the number of steps. */
  lemma {:induction false} SecondsNeverGrow(c: State, k: nat)
    ensures Run(c, k).0.seconds <= c.seconds
    decreases k
  {
    if k > 0 {
      SecondsNeverGrow(Next(c).0, k - 1);
    }
  }

  /**
   * Started with `n` seconds left, the countdown reaches zero after `n`
   * steps, stops on the next, and from then on stays stopped: however many
   * further steps follow, it has notified exactly once.
   */
  lemma {:induction false} FinishesOnce(n: nat, k: nat)
    ensures Run(State(n, true), n + 1 + k) == (State(0, false), 1)
    decreases n
  {
    if n == 0 {
      PausedStays(State(0, false), k);
    } else {
      FinishesOnce(n - 1, k);
    }
  }

  /** Within its first `n` steps a countdown started at `n` has not notified and is still running. */
  lemma {:induction false} QuietBeforeZero(n: nat, k: nat)
    requires k <= n
    ensures Run(State(n, true), k) == (State(n - k, true), 0)
    decreases k
  {
    if k > 0 {
      QuietBeforeZero(n - 1, k - 1);
    }
  }

  /** Starting again at zero finishes at once, notifying again. */
  lemma RestartAtZero()
    ensures Next(State(0, true)) == (State(0, false), true)
  {
  }
}
