/**
 * The alarm screen's on/off switch. It builds a two-field patch from the
 * alarm as shown and hands it to the controller's `UpdateAlarm`: the new
 * `active` flag, and the activation timestamp (the current time when
 * switching on, `undefined` when switching off).
 */
module AlarmView {
  import opened Wrappers
  import opened Types
  import opened AlarmStore
  import App

  /** The patch for the switch of alarm `a`, at clock reading `now` (milliseconds). */
  function TogglePatch(a: Alarm, now: int): Patch
  {
    EmptyPatch.(active := Some(!a.active), activationTime := Some(if !a.active then Some(now) else None))
  }

  /**
   * The switched alarm: its `active` is the negation of what it was; when it
   * comes on, its activation time is `now`; when it goes off, there is none.
   * The id, time, label, sound and snooze deadline are kept.
   */
  lemma ToggleApplied(a: Alarm, now: int)
    ensures Apply(a, TogglePatch(a, now)).active == !a.active
    ensures Apply(a, TogglePatch(a, now)).active ==> Apply(a, TogglePatch(a, now)).activationTime == Some(now)
    ensures !Apply(a, TogglePatch(a, now)).active ==> Apply(a, TogglePatch(a, now)).activationTime == None
    ensures Apply(a, TogglePatch(a, now)) == a.(active := !a.active, activationTime := Apply(a, TogglePatch(a, now)).activationTime)
  {
  }

  /** Switching twice puts `active` back as it was, and nothing but the activation time differs. */
  lemma ToggleTwice(a: Alarm, now: int, later: int)
    ensures var b := Apply(a, TogglePatch(a, now));
            var c := Apply(b, TogglePatch(b, later));
            c.active == a.active && c == a.(activationTime := c.activationTime)
  {
  }

  /**
   * Switching the alarm at position `i` through the list: that alarm comes
   * out with `active` negated; every alarm of the list keeps its id, time,
   * label and sound; alarms with another id are not touched; the length and
   * the order are kept.
   */
  lemma ToggleInList(alarms: seq<Alarm>, i: nat, now: int)
    requires i < |alarms|
    ensures var r := Updated(alarms, alarms[i].id, TogglePatch(alarms[i], now));
            && |r| == |alarms|
            && r[i].active == !alarms[i].active
            && (forall j :: 0 <= j < |alarms| ==>
                  r[j].id == alarms[j].id && r[j].time == alarms[j].time
                  && r[j].labelText == alarms[j].labelText && r[j].sound == alarms[j].sound)
            && (forall j :: 0 <= j < |alarms| && alarms[j].id != alarms[i].id ==> r[j] == alarms[j])
  {
  }

  /** `handleToggleActive`: the switch's patch goes through the controller's update. */
  method HandleToggleActive(app: App.Controller, alarm: Alarm, now: int)
    requires app.Valid()
    modifies app
    ensures app.Valid()
    ensures app.alarms == Updated(old(app.alarms), alarm.id, TogglePatch(alarm, now))
    ensures app.ringingAlarmId == old(app.ringingAlarmId) && app.audio == old(app.audio)
    ensures app.previewPending == old(app.previewPending)
  {
    app.UpdateAlarm(alarm.id, TogglePatch(alarm, now));
  }
}
