/** The records and the fixed sound catalogue the whole application shares. */
module Types {
  import opened Wrappers

  /** The five screens; the document title depends on which one is shown. */
  datatype View = Dashboard | Alarms | Stopwatch | Temporizador | Pomodoro

  /**
   * One alarm as it is held in memory and persisted. `time` is meant to be
   * "HH:MM" but nothing enforces it; `sound` is a key looked up in SOUNDS when
   * the alarm rings. The two optional timestamps are milliseconds; `labelText` is the
   * record's `label` field (`label` is a Dafny keyword).
   */
  datatype Alarm = Alarm(
    id: string,
    time: string,
    labelText: string,
    sound: string,
    active: bool,
    snoozedUntil: Option<int>,
    activationTime: Option<int>)

  datatype SoundKey =
    | Forest | Crystal | Dawn | Piano | SummerWind | Zen | ClassicSoft
    | TimerBeep | TimerBell | TimerAlert | TimerWhistle

  /** The key as the catalogue spells it. */
  function KeyName(k: SoundKey): string
  {
    match k
    case Forest => "forest"
    case Crystal => "crystal"
    case Dawn => "dawn"
    case Piano => "piano"
    case SummerWind => "summer_wind"
    case Zen => "zen"
    case ClassicSoft => "classic_soft"
    case TimerBeep => "timer_beep"
    case TimerBell => "timer_bell"
    case TimerAlert => "timer_alert"
    case TimerWhistle => "timer_whistle"
  }

  datatype SoundOption = SoundOption(key: SoundKey, labelText: string, url: string)

  const MixkitPrefix := "https://assets.mixkit.co/active_storage/sfx/"

  function Entry(k: SoundKey, labelText: string, asset: string): SoundOption
  {
    SoundOption(k, labelText, MixkitPrefix + asset + "/" + asset + "-preview.mp3")
  }

  /** The catalogue, keyed by the spelled-out sound key. */
  const SOUNDS: map<string, SoundOption> := map[
    "forest" := Entry(Forest, "\U{1F332} P\U{00E1}ssaros na Floresta", "2434"),
    "crystal" := Entry(Crystal, "\U{1F48E} Sino de Cristal", "1004"),
    "dawn" := Entry(Dawn, "\U{1F305} Amanhecer Dourado", "2568"),
    "piano" := Entry(Piano, "\U{1F3B9} Piano Sereno", "936"),
    "summer_wind" := Entry(SummerWind, "\U{1F32C}\U{FE0F} Vento de Ver\U{00E3}o", "2432"),
    "zen" := Entry(Zen, "\U{1F9D8} Jardim Zen", "2653"),
    "classic_soft" := Entry(ClassicSoft, "\U{23F0} Beep Suave", "2869"),
    "timer_beep" := Entry(TimerBeep, "\U{1F4DF} Bipe Digital", "2869"),
    "timer_bell" := Entry(TimerBell, "\U{1F514} Sino de Escola", "1085"),
    "timer_alert" := Entry(TimerAlert, "\U{1F6A8} Alerta Urgente", "1003"),
    "timer_whistle" := Entry(TimerWhistle, "\U{1F3C1} Apito", "1013")
  ]

  /** `SOUNDS[soundKey]`: the catalogue entry for a key, or None for a key the catalogue lacks. */
  function LookupSound(key: string): (r: Option<SoundOption>)
    ensures r.Some? <==> key in SOUNDS
    ensures r.Some? ==> KeyName(r.value.key) == key
  {
    if key in SOUNDS then Some(SOUNDS[key]) else None
  }

  /** The catalogue is total over SoundKey and each entry is filed under its own key. */
  lemma CatalogueComplete(k: SoundKey)
    ensures LookupSound(KeyName(k)).Some? && LookupSound(KeyName(k)).value.key == k
  {
  }

  lemma KeyNameInjective(k: SoundKey, k': SoundKey)
    requires KeyName(k) == KeyName(k')
    ensures k == k'
  {
  }
}
