/**
 * What one tick of the one-second interval does, as functions of the alarm
 * list, the clock reading and the ringing id from before the tick. Every
 * alarm is compared against that pre-tick ringing id, so several alarms can
 * fire in one tick; each firing overwrites the ringing id and restarts the
 * looped sound, so the last firing alarm in list order is left ringing.
 */
module Scheduler {
  import opened Wrappers
  import opened Types
  import opened Audio

  /** An alarm fires when it is active, shows the current "HH:MM", the second is 0, and it is not the one already ringing. */
  predicate Fires(a: Alarm, now: string, second: nat, ringing: Option<string>)
  {
    a.active && a.time == now && second == 0 && ringing != Some(a.id)
  }

  /** The alarms a tick fires, in list order. */
  function Firing(alarms: seq<Alarm>, now: string, second: nat, ringing: Option<string>): seq<Alarm>
    decreases |alarms|
  {
    if alarms == [] then []
    else
      var last := alarms[|alarms| - 1];
      Firing(alarms[..|alarms| - 1], now, second, ringing) + (if Fires(last, now, second, ringing) then [last] else [])
  }

  /** The ringing id after the tick: the last fired alarm's id, or the old one if none fired. */
  function RingingAfter(ringing: Option<string>, fired: seq<Alarm>): Option<string>
  {
    if fired == [] then ringing else Some(fired[|fired| - 1].id)
  }

  /** The playback handle after the tick: one looped `playAudio` per fired alarm, in order. */
  function AudioAfter(audio: Option<Playback>, fired: seq<Alarm>): Option<Playback>
    decreases |fired|
  {
    if fired == [] then audio
    else Played(AudioAfter(audio, fired[..|fired| - 1]), fired[|fired| - 1].sound, true)
  }

  /** Taking one more alarm of the list into account. */
  lemma FiringStep(alarms: seq<Alarm>, i: nat, now: string, second: nat, ringing: Option<string>)
    requires i < |alarms|
    ensures Firing(alarms[..i + 1], now, second, ringing) ==
      Firing(alarms[..i], now, second, ringing) + (if Fires(alarms[i], now, second, ringing) then [alarms[i]] else [])
  {
    assert alarms[..i + 1][..i] == alarms[..i];
  }

  /** A one-alarm list fires that alarm exactly when it meets the condition. */
  lemma FiringOne(a: Alarm, now: string, second: nat, ringing: Option<string>)
    ensures Firing([a], now, second, ringing) == if Fires(a, now, second, ringing) then [a] else []
  {
    assert [a][..0] == [];
  }

  /** One more fired alarm: it becomes the ringing one and its sound is played looped. */
  lemma FiredStep(ringing: Option<string>, audio: Option<Playback>, fired: seq<Alarm>, a: Alarm)
    ensures RingingAfter(ringing, fired + [a]) == Some(a.id)
    ensures AudioAfter(audio, fired + [a]) == Played(AudioAfter(audio, fired), a.sound, true)
  {
  }

  /** The fired alarms are exactly the alarms of the list that meet the firing condition. */
  lemma {:induction false} FiringExactly(alarms: seq<Alarm>, now: string, second: nat, ringing: Option<string>)
    ensures forall a :: a in Firing(alarms, now, second, ringing) <==> a in alarms && Fires(a, now, second, ringing)
    decreases |alarms|
  {
    if alarms != [] {
      var init := alarms[..|alarms| - 1];
      FiringExactly(init, now, second, ringing);
      assert alarms == init + [alarms[|alarms| - 1]];
    }
  }

  /** Away from second 0 a tick fires nothing, so an alarm fires at most once in its minute. */
  lemma {:induction false} QuietOffMinute(alarms: seq<Alarm>, now: string, second: nat, ringing: Option<string>)
    requires second != 0
    ensures Firing(alarms, now, second, ringing) == []
    decreases |alarms|
  {
    if alarms != [] {
      QuietOffMinute(alarms[..|alarms| - 1], now, second, ringing);
    }
  }

  /**
   * When anything fires, the last fired alarm is the last alarm in list order
   * meeting the firing condition, and its id is the ringing id after the tick.
   */
  lemma {:induction false} LastFiringWins(alarms: seq<Alarm>, now: string, second: nat, ringing: Option<string>)
    requires Firing(alarms, now, second, ringing) != []
    ensures exists k ::
              && 0 <= k < |alarms|
              && Fires(alarms[k], now, second, ringing)
              && RingingAfter(ringing, Firing(alarms, now, second, ringing)) == Some(alarms[k].id)
              && Firing(alarms, now, second, ringing)[|Firing(alarms, now, second, ringing)| - 1] == alarms[k]
              && forall j :: k < j < |alarms| ==> !Fires(alarms[j], now, second, ringing)
    decreases |alarms|
  {
    var n := |alarms|;
    var init := alarms[..n - 1];
    if Fires(alarms[n - 1], now, second, ringing) {
      assert 0 <= n - 1 < n && Fires(alarms[n - 1], now, second, ringing);
    } else {
      LastFiringWins(init, now, second, ringing);
      var k :|
        && 0 <= k < |init|
        && Fires(init[k], now, second, ringing)
        && Firing(init, now, second, ringing)[|Firing(init, now, second, ringing)| - 1] == init[k]
        && forall j :: k < j < |init| ==> !Fires(init[j], now, second, ringing);
      assert Firing(alarms, now, second, ringing) == Firing(init, now, second, ringing);
      assert alarms[k] == init[k];
      forall j | k < j < n ensures !Fires(alarms[j], now, second, ringing) {
        if j < n - 1 {
          assert alarms[j] == init[j];
        }
      }
    }
  }

  /**
   * After a tick that fired, the last fired alarm's sound decides the handle:
   * a catalogue sound is playing, looped; an unknown one leaves nothing playing.
   */
  lemma TickSound(audio: Option<Playback>, fired: seq<Alarm>)
    requires fired != []
    ensures LookupSound(fired[|fired| - 1].sound).Some? ==>
      AudioAfter(audio, fired) == Some(Playback(LookupSound(fired[|fired| - 1].sound).value, true, true))
    ensures LookupSound(fired[|fired| - 1].sound).None? ==> !IsPlaying(AudioAfter(audio, fired))
  {
  }
}
