/**
 * The single playback handle and what `stopAudio` and `playAudio` do to it,
 * as functions on its value. The controller's methods are proved against
 * these functions.
 */
module Audio {
  import opened Wrappers
  import opened Types

  /**
   * The audio element held in `audioRef.current`, reduced to the catalogue
   * entry it was made from, its loop flag and whether it is playing. A paused
   * and rewound element stays in the handle, not playing.
   */
  datatype Playback = Playback(sound: SoundOption, loop: bool, playing: bool)

  predicate IsPlaying(a: Option<Playback>)
  {
    a.Some? && a.value.playing
  }

  /** `stopAudio`: the handle, if any, is paused and rewound; nothing else about it changes. */
  function Stopped(a: Option<Playback>): (r: Option<Playback>)
    ensures !IsPlaying(r)
    ensures r.Some? == a.Some?
    ensures r.Some? ==> r.value.sound == a.value.sound && r.value.loop == a.value.loop
  {
    match a
    case None => None
    case Some(p) => Some(p.(playing := false))
  }

  /**
   * `playAudio(key, loop)`: stop first; then a known key leaves a fresh
   * playing handle for its catalogue entry with the given loop flag, and an
   * unknown key leaves the stopped old handle.
   */
  function Played(a: Option<Playback>, key: string, loop: bool): (r: Option<Playback>)
    ensures LookupSound(key).Some? ==> r == Some(Playback(LookupSound(key).value, loop, true))
    ensures LookupSound(key).None? ==> r == Stopped(a) && !IsPlaying(r)
  {
    var stopped := Stopped(a);
    match LookupSound(key)
    case Some(entry) => Some(Playback(entry, loop, true))
    case None => stopped
  }

  /** A second stop changes nothing. */
  lemma StopIdempotent(a: Option<Playback>)
    ensures Stopped(Stopped(a)) == Stopped(a)
  {
  }

  /** With a known key, what played before makes no difference: the old session is gone. */
  lemma PlaySupersedes(a: Option<Playback>, b: Option<Playback>, key: string, loop: bool)
    requires key in SOUNDS
    ensures Played(a, key, loop) == Played(b, key, loop)
    ensures IsPlaying(Played(a, key, loop)) && Played(a, key, loop).value.loop == loop
  {
  }
}
