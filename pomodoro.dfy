/**
 * The pomodoro screen: a 25-minute focus countdown with one start/pause
 * button and no reset. When it reaches zero it reports the sound "forest",
 * which the application plays once through the shared controller.
 */
module PomodoroView {
  import opened Wrappers
  import opened Format
  import opened Audio
  import Countdown
  import App

  const InitialSeconds := 1500

  /** The sound reported to the application when a focus period ends. */
  const FinishSound := "forest"

  /**
   * The display: whole minutes without padding, a colon, and the remaining
   * seconds padded to two digits. It reads back as that pair; the minutes
   * take a single character exactly below ten minutes and start with '0'
   * only when there are none, so nothing is padded in front of them.
   */
  function DisplayText(s: nat): (r: string)
    ensures ParseClock(r) == Some((s / 60, s % 60))
    ensures |r| >= 4 && r[|r| - 3] == ':'
    ensures (|r| == 4) <==> s < 600
    ensures r[0] == '0' <==> s < 60
  {
    var left := DecimalString(s / 60);
    var right := TwoDigits(s % 60);
    DecimalStringRoundTrip(s / 60);
    ParseClockJoin(left, right);
    left + ":" + right
  }

  /** Different second counts never show the same text. */
  lemma DisplayDetermines(s: nat, s': nat)
    requires DisplayText(s) == DisplayText(s')
    ensures s == s'
  {
    assert Some((s / 60, s % 60)) == Some((s' / 60, s' % 60));
    assert s == (s / 60) * 60 + s % 60;
    assert s' == (s' / 60) * 60 + s' % 60;
  }

  class Pomodoro {
    var seconds: nat
    var isRunning: bool

    function State(): Countdown.State
      reads this
    {
      Countdown.State(seconds, isRunning)
    }

    /** Twenty-five minutes on the clock, not running. */
    constructor ()
      ensures seconds == InitialSeconds && !isRunning
    {
      seconds := InitialSeconds;
      isRunning := false;
    }

    /**
     * One step of the effect: a running countdown with time left loses one
     * second; a running countdown at zero stops and reports "forest", which
     * the application plays once (not looped). Nothing else of the
     * controller changes.
     */
    method Step(app: App.Controller)
      modifies this, app
      ensures State() == Countdown.Next(old(State())).0
      ensures app.audio == if Countdown.Next(old(State())).1 then Played(old(app.audio), FinishSound, false) else old(app.audio)
      ensures app.alarms == old(app.alarms) && app.stored == old(app.stored)
      ensures app.ringingAlarmId == old(app.ringingAlarmId) && app.previewPending == old(app.previewPending)
    {
      if isRunning && seconds > 0 {
        seconds := seconds - 1;
      } else if seconds == 0 && isRunning {
        isRunning := false;
        OnFinished(app, FinishSound);
      }
    }

    /** The start/pause button; the seconds are kept, there is no reset. */
    method Toggle()
      modifies this
      ensures isRunning == !old(isRunning) && seconds == old(seconds)
    {
      isRunning := !isRunning;
    }
  }

  /** The application's `onFinished` callback: play the reported sound once. */
  method OnFinished(app: App.Controller, sound: string)
    modifies app
    ensures app.audio == Played(old(app.audio), sound, false)
    ensures app.alarms == old(app.alarms) && app.stored == old(app.stored)
    ensures app.ringingAlarmId == old(app.ringingAlarmId) && app.previewPending == old(app.previewPending)
  {
    app.PlayAudio(sound, false);
  }
}
