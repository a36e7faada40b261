/**
 * The alarm list and its three edits. Each edit builds a new list from the
 * old one (append, map, filter); the list keeps insertion order.
 */
module AlarmStore {
  import opened Wrappers
  import opened Types
  import opened Format

  /**
   * A `Partial<Alarm>`: each field is either absent (None) or carries the new
   * value. The optional fields may be present with value `undefined`, which
   * is Some(None).
   */
  datatype Patch = Patch(
    id: Option<string>,
    time: Option<string>,
    labelText: Option<string>,
    sound: Option<string>,
    active: Option<bool>,
    snoozedUntil: Option<Option<int>>,
    activationTime: Option<Option<int>>)

  const EmptyPatch := Patch(None, None, None, None, None, None, None)

  function Overlay<T>(field: Option<T>, base: T): T
  {
    if field.Some? then field.value else base
  }

  /** `{ ...a, ...p }`: every field present in the patch replaces the alarm's. */
  function Apply(a: Alarm, p: Patch): Alarm
  {
    Alarm(
      Overlay(p.id, a.id),
      Overlay(p.time, a.time),
      Overlay(p.labelText, a.labelText),
      Overlay(p.sound, a.sound),
      Overlay(p.active, a.active),
      Overlay(p.snoozedUntil, a.snoozedUntil),
      Overlay(p.activationTime, a.activationTime))
  }

  lemma ApplyEmpty(a: Alarm)
    ensures Apply(a, EmptyPatch) == a
  {
  }

  /** The record `addAlarm` creates: unlabelled, inactive, the soft classic sound, no timestamps. */
  function NewAlarm(id: string, time: string): Alarm
  {
    Alarm(id, time, "", "classic_soft", false, None, None)
  }

  /**
   * `addAlarm` on a clock reading `h:m`: one new alarm at the end, due one
   * hour later, i.e. at "HH:MM" of ((h + 1) mod 24, m). Earlier alarms are
   * kept as they were, and nothing checks that `id` is unused.
   */
  function Added(alarms: seq<Alarm>, id: string, h: nat, m: nat): (r: seq<Alarm>)
    ensures |r| == |alarms| + 1 && r[..|alarms|] == alarms
    ensures r[|alarms|] == NewAlarm(id, ClockText((h + 1) % 24, m))
    ensures m < 100 ==> ParseClock(r[|alarms|].time) == Some(((h + 1) % 24, m))
    ensures !r[|alarms|].active && r[|alarms|].sound in SOUNDS
  {
    alarms + [NewAlarm(id, ClockText((h + 1) % 24, m))]
  }

  /**
   * `updateAlarm(id, p)`: every alarm whose id is `id` gets the patch
   * overlaid; every other alarm, the length and the order stay as they were.
   */
  function Updated(alarms: seq<Alarm>, id: string, p: Patch): (r: seq<Alarm>)
    ensures |r| == |alarms|
    ensures forall i :: 0 <= i < |alarms| && alarms[i].id == id ==> r[i] == Apply(alarms[i], p)
    ensures forall i :: 0 <= i < |alarms| && alarms[i].id != id ==> r[i] == alarms[i]
    decreases |alarms|
  {
    if alarms == [] then []
    else [if alarms[0].id == id then Apply(alarms[0], p) else alarms[0]] + Updated(alarms[1..], id, p)
  }

  predicate HasId(alarms: seq<Alarm>, id: string)
  {
    exists i :: 0 <= i < |alarms| && alarms[i].id == id
  }

  lemma UpdateUnknownId(alarms: seq<Alarm>, id: string, p: Patch)
    requires !HasId(alarms, id)
    ensures Updated(alarms, id, p) == alarms
  {
  }

  /**
   * `deleteAlarm(id)`: drops exactly the alarms whose id is `id`; an alarm
   * survives if and only if its id differs.
   */
  function Deleted(alarms: seq<Alarm>, id: string): (r: seq<Alarm>)
    ensures |r| <= |alarms|
    ensures forall a :: a in r <==> a in alarms && a.id != id
    decreases |alarms|
  {
    if alarms == [] then []
    else (if alarms[0].id == id then [] else [alarms[0]]) + Deleted(alarms[1..], id)
  }

  /** The number of alarms carrying `id`. */
  function CountId(alarms: seq<Alarm>, id: string): nat
    decreases |alarms|
  {
    if alarms == [] then 0 else (if alarms[0].id == id then 1 else 0) + CountId(alarms[1..], id)
  }

  /** Delete acts on each part of a list separately, so the survivors keep their relative order. */
  lemma {:induction false} DeletedAppend(a: seq<Alarm>, b: seq<Alarm>, id: string)
    ensures Deleted(a + b, id) == Deleted(a, id) + Deleted(b, id)
    decreases |a|
  {
    if a != [] {
      assert (a + b)[1..] == a[1..] + b;
      DeletedAppend(a[1..], b, id);
    } else {
      assert a + b == b;
    }
  }

  /** Exactly the alarms carrying `id` are removed: no more, no fewer. */
  lemma {:induction false} DeletedLength(alarms: seq<Alarm>, id: string)
    ensures |Deleted(alarms, id)| + CountId(alarms, id) == |alarms|
    decreases |alarms|
  {
    if alarms != [] {
      DeletedLength(alarms[1..], id);
    }
  }

  /** Deleting an id nobody carries is a no-op. */
  lemma {:induction false} DeleteUnknownId(alarms: seq<Alarm>, id: string)
    requires !HasId(alarms, id)
    ensures Deleted(alarms, id) == alarms
    decreases |alarms|
  {
    if alarms != [] {
      assert !HasId(alarms[1..], id) by {
        forall i | 0 <= i < |alarms[1..]| ensures alarms[1..][i].id != id {
          assert alarms[1..][i] == alarms[i + 1];
        }
      }
      DeleteUnknownId(alarms[1..], id);
      assert alarms == [alarms[0]] + alarms[1..];
    }
  }

  /** Deleting twice removes nothing more. */
  lemma DeleteIdempotent(alarms: seq<Alarm>, id: string)
    ensures Deleted(Deleted(alarms, id), id) == Deleted(alarms, id)
  {
    var r := Deleted(alarms, id);
    assert !HasId(r, id) by {
      forall i | 0 <= i < |r| ensures r[i].id != id {
        assert r[i] in r;
      }
    }
    DeleteUnknownId(r, id);
  }
}
