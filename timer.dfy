/**
 * The countdown-timer screen: five minutes, a start/pause button, a reset
 * button, and a looped digital beep through the shared controller when it
 * reaches zero.
 */
module TimerView {
  import opened Wrappers
  import opened Format
  import opened Audio
  import Countdown
  import App

  const InitialSeconds := 300

  /** The sound the timer plays, looped, when it finishes. */
  const FinishSound := "timer_beep"

  /**
   * `format(s)`: whole minutes and remaining seconds, each zero-padded to two
   * digits. The text reads back as exactly that pair.
   */
  function FormatSeconds(s: nat): (r: string)
    ensures ParseClock(r) == Some((s / 60, s % 60))
    ensures |r| >= 5 && (s < 6000 ==> |r| == 5)
    ensures r[0] == '0' <==> s < 600
  {
    ClockText(s / 60, s % 60)
  }

  /** The minutes and seconds shown add back up to `s`, the seconds part is below 60, so the display determines `s`. */
  lemma FormatDetermines(s: nat, s': nat)
    requires FormatSeconds(s) == FormatSeconds(s')
    ensures s == s'
  {
  }

  class Timer {
    var seconds: nat
    var isRunning: bool

    function State(): Countdown.State
      reads this
    {
      Countdown.State(seconds, isRunning)
    }

    /** Five minutes on the clock, not running. */
    constructor ()
      ensures seconds == InitialSeconds && !isRunning
    {
      seconds := InitialSeconds;
      isRunning := false;
    }

    /**
     * One step of the effect: a running timer with time left loses one
     * second (the interval's tick); a running timer at zero stops and starts
     * the beep, looped. The controller's list, ringing id and pending
     * preview stop are not touched.
     */
    method Step(app: App.Controller)
      modifies this, app
      ensures State() == Countdown.Next(old(State())).0
      ensures app.audio == if Countdown.Next(old(State())).1 then Played(old(app.audio), FinishSound, true) else old(app.audio)
      ensures app.alarms == old(app.alarms) && app.stored == old(app.stored)
      ensures app.ringingAlarmId == old(app.ringingAlarmId) && app.previewPending == old(app.previewPending)
    {
      if isRunning && seconds > 0 {
        seconds := seconds - 1;
      } else if seconds == 0 && isRunning {
        isRunning := false;
        app.PlayAudio(FinishSound, true);
      }
    }

    /** The start/pause button. */
    method Toggle()
      modifies this
      ensures isRunning == !old(isRunning) && seconds == old(seconds)
    {
      isRunning := !isRunning;
    }

    /** The reset button: paused, five minutes again, and the sound stopped. */
    method Reset(app: App.Controller)
      modifies this, app
      ensures !isRunning && seconds == InitialSeconds
      ensures app.audio == Stopped(old(app.audio))
      ensures app.alarms == old(app.alarms) && app.stored == old(app.stored)
      ensures app.ringingAlarmId == old(app.ringingAlarmId) && app.previewPending == old(app.previewPending)
    {
      isRunning := false;
      seconds := InitialSeconds;
      app.StopAudio();
    }
  }
}
