/**
 * The shared controller: the alarm list with its persisted copy, the
 * ringing alarm's id, the one playback handle and the pending preview
 * auto-stop. Every entry point of the application component is a method;
 * timers are replaced by explicit calls (`Tick` for the one-second interval,
 * `FirePreviewTimeout` for the preview's 3000 ms timeout).
 */
module App {
  import opened Wrappers
  import opened Types
  import opened Format
  import opened Audio
  import AlarmStore
  import Scheduler

  /**
   * The theme read at start-up: a missing or empty stored value means
   * "light"; any other stored text is used as it is, unchecked.
   */
  function InitialTheme(saved: Option<string>): (t: string)
    ensures saved.Some? && saved.value != "" ==> t == saved.value
    ensures saved.None? || saved.value == "" ==> t == "light"
  {
    if saved.Some? && saved.value != "" then saved.value else "light"
  }

  /** The theme button: "dark" becomes "light", anything else becomes "dark". */
  function ToggledTheme(t: string): (r: string)
    ensures r == "light" || r == "dark"
    ensures r == "light" <==> t == "dark"
  {
    if t == "dark" then "light" else "dark"
  }

  lemma ToggleThemeTwice(t: string)
    requires t == "light" || t == "dark"
    ensures ToggledTheme(ToggledTheme(t)) == t
  {
  }

  /** The patch `stopAlarm` merges into the ringing alarm. */
  const ActiveOff := AlarmStore.EmptyPatch.(active := Some(false))

  /**
   * The list after dismissing: when the ringing id is set and not empty (an
   * empty id is falsy and skips the update), each alarm carrying it is
   * switched off and keeps every other field; all other alarms are untouched.
   */
  function Dismissed(alarms: seq<Alarm>, ringing: Option<string>): (r: seq<Alarm>)
    ensures |r| == |alarms|
    ensures forall i :: 0 <= i < |alarms| ==>
      r[i] == if ringing.Some? && ringing.value != "" && alarms[i].id == ringing.value
              then alarms[i].(active := false) else alarms[i]
  {
    if ringing.Some? && ringing.value != "" then AlarmStore.Updated(alarms, ringing.value, ActiveOff) else alarms
  }

  class Controller {
    var alarms: seq<Alarm>
    /** The list as last written to device storage. */
    var stored: seq<Alarm>
    var ringingAlarmId: Option<string>
    var audio: Option<Playback>
    /** Whether a preview's auto-stop is scheduled and has not yet fired. */
    var previewPending: bool

    /** Storage is rewritten after every change of the list. */
    ghost predicate Valid()
      reads this
    {
      stored == alarms
    }

    /**
     * Start-up: the list decoded from storage if there was one, else empty;
     * nothing rings, no handle, no pending preview stop.
     */
    constructor (saved: Option<seq<Alarm>>)
      ensures Valid()
      ensures alarms == (if saved.Some? then saved.value else [])
      ensures ringingAlarmId == None && audio == None && !previewPending
    {
      alarms := if saved.Some? then saved.value else [];
      stored := alarms;
      ringingAlarmId := None;
      audio := None;
      previewPending := false;
    }

    /** Pause and rewind the handle, if there is one; idempotent. */
    method StopAudio()
      modifies this
      ensures audio == Stopped(old(audio))
      ensures alarms == old(alarms) && stored == old(stored)
      ensures ringingAlarmId == old(ringingAlarmId) && previewPending == old(previewPending)
    {
      if audio.Some? {
        audio := Some(audio.value.(playing := false));
      }
    }

    /**
     * Stop, then start the catalogue sound for `key` with the loop flag; an
     * unknown key leaves nothing playing. A pending preview stop stays
     * scheduled.
     */
    method PlayAudio(key: string, loop: bool)
      modifies this
      ensures audio == Played(old(audio), key, loop)
      ensures alarms == old(alarms) && stored == old(stored)
      ensures ringingAlarmId == old(ringingAlarmId) && previewPending == old(previewPending)
    {
      StopAudio();
      var sound := LookupSound(key);
      if sound.Some? {
        audio := Some(Playback(sound.value, loop, true));
      }
    }

    /** Cancel any pending preview stop, play `key` once, and schedule one new stop. */
    method PreviewSound(key: string)
      modifies this
      ensures audio == Played(old(audio), key, false)
      ensures previewPending
      ensures alarms == old(alarms) && stored == old(stored) && ringingAlarmId == old(ringingAlarmId)
    {
      if previewPending {
        previewPending := false;
      }
      PlayAudio(key, false);
      previewPending := true;
    }

    /** The preview's timeout fires: whatever the handle holds now is stopped. */
    method FirePreviewTimeout()
      requires previewPending
      modifies this
      ensures audio == Stopped(old(audio)) && !previewPending
      ensures alarms == old(alarms) && stored == old(stored) && ringingAlarmId == old(ringingAlarmId)
    {
      StopAudio();
      previewPending := false;
    }

    /**
     * One tick of the interval at clock reading `h:m:s`: the current time as
     * "HH:MM", then every alarm checked against it.
     */
    method Tick(h: nat, m: nat, s: nat)
      requires Valid()
      modifies this
      ensures Valid()
      ensures alarms == old(alarms) && previewPending == old(previewPending)
      ensures ringingAlarmId == Scheduler.RingingAfter(old(ringingAlarmId),
        Scheduler.Firing(old(alarms), ClockText(h, m), s, old(ringingAlarmId)))
      ensures audio == Scheduler.AudioAfter(old(audio),
        Scheduler.Firing(old(alarms), ClockText(h, m), s, old(ringingAlarmId)))
    {
      var currentTime := ClockText(h, m);
      RingMatching(currentTime, s);
    }

    /**
     * The `forEach` of the tick. Each alarm is checked against the ringing
     * id from before the loop; each one that fires becomes the ringing alarm
     * and starts its sound looped.
     */
    method RingMatching(now: string, second: nat)
      requires Valid()
      modifies this
      ensures Valid()
      ensures alarms == old(alarms) && previewPending == old(previewPending)
      ensures ringingAlarmId == Scheduler.RingingAfter(old(ringingAlarmId),
        Scheduler.Firing(old(alarms), now, second, old(ringingAlarmId)))
      ensures audio == Scheduler.AudioAfter(old(audio),
        Scheduler.Firing(old(alarms), now, second, old(ringingAlarmId)))
    {
      var pre := ringingAlarmId;
      var list := alarms;
      ghost var audio0 := audio;
      ghost var fired: seq<Alarm> := [];
      var i := 0;
      while i < |list|
        invariant 0 <= i <= |list|
        invariant alarms == list && stored == list && previewPending == old(previewPending)
        invariant fired == Scheduler.Firing(list[..i], now, second, pre)
        invariant ringingAlarmId == Scheduler.RingingAfter(pre, fired)
        invariant audio == Scheduler.AudioAfter(audio0, fired)
      {
        var alarm := list[i];
        Scheduler.FiringStep(list, i, now, second, pre);
        if Scheduler.Fires(alarm, now, second, pre) {
          Scheduler.FiredStep(pre, audio0, fired, alarm);
          fired := fired + [alarm];
          ringingAlarmId := Some(alarm.id);
          PlayAudio(alarm.sound, true);
        } else {
          assert fired + [] == fired;
        }
        i := i + 1;
      }
      assert list[..|list|] == list;
    }

    /** Dismiss the ringing alarm: stop the sound, switch the alarm off, clear the ringing id. */
    method StopAlarm()
      requires Valid()
      modifies this
      ensures Valid()
      ensures audio == Stopped(old(audio)) && ringingAlarmId == None
      ensures alarms == Dismissed(old(alarms), old(ringingAlarmId))
      ensures previewPending == old(previewPending)
    {
      StopAudio();
      if ringingAlarmId.Some? && ringingAlarmId.value != "" {
        alarms := AlarmStore.Updated(alarms, ringingAlarmId.value, ActiveOff);
        stored := alarms;
      }
      ringingAlarmId := None;
    }

    /** Append a new alarm due one hour after the clock reading `h:m`, under the id `id`. */
    method AddAlarm(id: string, h: nat, m: nat)
      requires Valid()
      modifies this
      ensures Valid()
      ensures alarms == AlarmStore.Added(old(alarms), id, h, m)
      ensures ringingAlarmId == old(ringingAlarmId) && audio == old(audio) && previewPending == old(previewPending)
    {
      alarms := AlarmStore.Added(alarms, id, h, m);
      stored := alarms;
    }

    method UpdateAlarm(id: string, p: AlarmStore.Patch)
      requires Valid()
      modifies this
      ensures Valid()
      ensures alarms == AlarmStore.Updated(old(alarms), id, p)
      ensures ringingAlarmId == old(ringingAlarmId) && audio == old(audio) && previewPending == old(previewPending)
    {
      alarms := AlarmStore.Updated(alarms, id, p);
      stored := alarms;
    }

    /** Remove the alarms carrying `id`. The ringing id and the sound are left as they were. */
    method DeleteAlarm(id: string)
      requires Valid()
      modifies this
      ensures Valid()
      ensures alarms == AlarmStore.Deleted(old(alarms), id)
      ensures ringingAlarmId == old(ringingAlarmId) && audio == old(audio) && previewPending == old(previewPending)
    {
      alarms := AlarmStore.Deleted(alarms, id);
      stored := alarms;
    }
  }

  /**
   * A preview's auto-stop outlives the playback it was meant for: an alarm
   * that starts ringing within the preview window is silenced when the
   * stale timeout fires, while it still counts as ringing.
   */
  method AlarmSilencedByStalePreview() returns (ringingBefore: bool, playingBefore: bool, ringingAfter: bool, playingAfter: bool)
    ensures ringingBefore && playingBefore
    ensures ringingAfter && !playingAfter
  {
    var now := ClockText(7, 30);
    var alarm := Alarm("1", now, "morning", "classic_soft", true, None, None);
    var c := new Controller(Some([alarm]));
    c.PreviewSound("zen");
    c.Tick(7, 30, 0);
    Scheduler.FiringOne(alarm, now, 0, None);
    assert alarm.sound in SOUNDS;
    ringingBefore := c.ringingAlarmId == Some("1");
    playingBefore := IsPlaying(c.audio);
    c.FirePreviewTimeout();
    ringingAfter := c.ringingAlarmId == Some("1");
    playingAfter := IsPlaying(c.audio);
  }
}
