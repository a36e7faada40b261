# DespertaFoco core, modelled in Dafny

DespertaFoco is a single-page time-management widget with four tools: alarms,
a pomodoro focus countdown, a countdown timer, and a stopwatch. One
application component holds the shared state:
- the alarm list, which is persisted to device storage after every change;
- the id of the alarm that is ringing;
- one audio playback handle;
- the pending auto-stop of a sound preview.

Each tool's screen adds a small state machine or a text formatter on top.

This project models that shared controller and the screens' state logic:

- `wrappers.dfy`: `Option`, standing for JavaScript's `null`/`undefined`.
- `types.dfy`: the `Alarm` record, the eleven `SoundKey`s and the `SOUNDS`
  catalogue. The catalogue is looked up by key text, and an unknown key gives
  `None`.
- `format.dfy`: `String(n)`, `padStart(2, '0')` and the `"HH:MM"` clock text,
  each with a parser and a round-trip lemma.
- `alarm_store.dfy`: `addAlarm`, `updateAlarm` and `deleteAlarm`. Each one
  builds a new list from the old one.
- `audio.dfy`: what `stopAudio` and `playAudio` do to the playback handle,
  written as functions on its value.
- `scheduler.dfy`: one tick of the one-second interval, written as functions
  of the list, the clock reading and the ringing id from before the tick.
- `title.dfy`: the document title.
- `app.dfy`: the class `Controller`, with one method per entry point. The
  `Tick` and `FirePreviewTimeout` methods stand in for the two timers.
- `alarm_view.dfy`: the on/off patch of the alarm screen.
- `countdown.dfy`: the decrement/finish state machine that the timer and
  pomodoro screens share.
- `timer.dfy`, `pomodoro.dfy`, `stopwatch.dfy`: one class per screen, each
  with its step, button and formatter.

Timers are explicit method calls:
- `Controller.Tick(h, m, s)` is one firing of the interval.
- `Controller.FirePreviewTimeout()` is the preview's 3000 ms stop.
- `Timer.Step`, `Pomodoro.Step` and `Stopwatch.Animate` are one run of the
  screen's effect or one animation frame.

Clock readings (`h`, `m`, `s`, `now`) and the new alarm's id (`Date.now()` in
the application) are parameters.

In these places the code does less than a reader might expect, and the model
follows the code:
- `playAudio` does not cancel a pending preview stop, and neither does
  `stopAlarm`. `AlarmSilencedByStalePreview` shows the effect: an alarm that
  starts ringing inside a preview's three-second window is silenced when the
  stale stop fires, and it still counts as ringing.
- Deleting the ringing alarm neither stops the sound nor clears the ringing
  id.
- When several alarms match in one tick, each one is compared against the
  ringing id from before the tick. Each match overwrites the previous one, so
  the last match in list order is left ringing, not the first.
- There is no snooze. `snoozedUntil` is a field that no code reads or writes.
- `stopAlarm` sets only `active` to false. It does not clear `snoozedUntil`.
- An empty ringing id counts as false in `stopAlarm`, so it clears the id
  without switching any alarm off.
- Stored alarms are decoded without a guard, so there is no fallback for
  malformed data.

## Model

| member | source | states |
|---|---|---|
| Types.SOUNDS | types.ts:30-43 | the catalogue as a constant with no contract of its own; `CatalogueComplete`, `KeyNameInjective` and `LookupSound` state its properties |
| Types.LookupSound | App.tsx:81-82 | the lookup finds an entry exactly for catalogue keys, and the entry found is filed under that key |
| Types.CatalogueComplete | types.ts:30-43 | every `SoundKey` has a catalogue entry, and that entry carries the same key |
| Types.KeyNameInjective | types.ts:22 | two sound keys with the same spelling are the same key |
| Format.TwoDigits | App.tsx:66 | `String(n).padStart(2,'0')` is at least two digits, exactly two below 100, still denotes `n`, and starts with '0' exactly below 10, so from 100 on it is `String(n)` with no padding |
| Format.DecimalString | App.tsx:66 | `String(n)` is a non-empty run of digits, one digit exactly below 10, and it starts with '0' only for n = 0 (no leading zeros) |
| Format.Pad2 | App.tsx:66 | `padStart(2, '0')` keeps a string of two or more characters as it is and otherwise puts '0's in front of it up to two characters |
| Format.DecimalStringRoundTrip | App.tsx:66 | reading back the digits of `String(n)` gives `n` |
| Format.ClockText | App.tsx:66 | the "HH:MM" text parses back to exactly its hour and minute, and has five characters with ':' at index 2 when both are below 100; it starts with '0' exactly when the hour is below 10 |
| Format.ClockTextInjective | App.tsx:66 | two clock readings with the same "HH:MM" text have the same hour and minute |
| AlarmStore.NewAlarm | App.tsx:114 | reference definition with no contract of its own: the new record with the given id and time, label '', sound `classic_soft`, inactive; `Added` states what it contributes |
| AlarmStore.Apply | App.tsx:119 | reference definition with no contract of its own: the `{ ...a, ...updates }` merge, each field present in the patch replacing the alarm's; `ApplyEmpty`, `Updated` and the `AlarmView` lemmas state its properties |
| AlarmStore.Added | App.tsx:110-116 | exactly one alarm is appended and the earlier ones are unchanged; the new alarm is inactive and unlabelled, uses the catalogue sound `classic_soft`, and its time parses back as ((h+1) mod 24, m) |
| AlarmStore.Updated | App.tsx:118-120 | the length is kept; alarms carrying the id get the patch overlaid, and every other alarm stays as it was, in place |
| AlarmStore.UpdateUnknownId | App.tsx:118-120 | updating an id that no alarm carries leaves the list unchanged |
| AlarmStore.ApplyEmpty | App.tsx:119 | an empty patch leaves an alarm unchanged |
| AlarmStore.Deleted | App.tsx:122-124 | an alarm survives the delete if and only if its id differs from the one deleted |
| AlarmStore.DeletedAppend | App.tsx:123 | the delete acts on each part of a list separately, so the survivors keep their relative order |
| AlarmStore.DeletedLength | App.tsx:123 | exactly as many alarms are removed as carry the id |
| AlarmStore.DeleteUnknownId | App.tsx:122-124 | deleting an id that no alarm carries leaves the list unchanged |
| AlarmStore.DeleteIdempotent | App.tsx:122-124 | a second delete of the same id removes nothing more |
| Audio.Stopped | App.tsx:89-94 | after a stop nothing is playing; a missing handle stays missing, and a present handle keeps its sound and loop flag |
| Audio.Played | App.tsx:79-87 | a known key gives a fresh playing handle with that entry and loop flag; an unknown key gives the stopped old handle, not playing |
| Audio.StopIdempotent | App.tsx:89-94 | a second stop changes nothing |
| Audio.PlaySupersedes | App.tsx:79-87 | with a known key the result does not depend on what was playing before, and it is playing with the requested loop flag |
| Scheduler.Fires | App.tsx:69-70 | reference definition with no contract of its own: the firing condition, active, showing the current "HH:MM", at second 0 and not the pre-tick ringing id |
| Scheduler.Firing | App.tsx:68-74 | reference definition with no contract of its own: the alarms a tick fires, in list order; `FiringStep`, `FiringExactly`, `QuietOffMinute` and `LastFiringWins` characterise it |
| Scheduler.RingingAfter | App.tsx:71 | reference definition with no contract of its own: the last fired alarm's id, or the old ringing id when nothing fired; `LastFiringWins` states its meaning |
| Scheduler.AudioAfter | App.tsx:72 | reference definition with no contract of its own: one looped `playAudio` per fired alarm, in order; `FiredStep` and `TickSound` state its effect |
| Scheduler.FiringStep | App.tsx:68-74 | the alarms fired by a list prefix one longer are those of the shorter prefix, plus the new alarm if it meets the firing condition |
| Scheduler.FiredStep | App.tsx:71-72 | one more fired alarm becomes the ringing id, and its sound is played looped on top of the previous handle |
| Scheduler.FiringOne | App.tsx:68-74 | a one-alarm list fires that alarm exactly when it meets the firing condition |
| Scheduler.FiringExactly | App.tsx:68-72 | an alarm fires in a tick if and only if it is in the list, is active, shows the current "HH:MM", the second is 0, and it is not the pre-tick ringing alarm |
| Scheduler.QuietOffMinute | App.tsx:70 | a tick at any second other than 0 fires nothing |
| Scheduler.LastFiringWins | App.tsx:68-74 | when something fires, the ringing id after the tick is that of the last alarm in list order that meets the firing condition |
| Scheduler.TickSound | App.tsx:68-74 | after a tick that fired, the last fired alarm's catalogue sound is playing looped; if its key is unknown, nothing is playing |
| Title.ViewTitle | App.tsx:29-35 | reference definition with no contract of its own: the screen name for each of the five views |
| Title.LexLeTotal | App.tsx:39 | any two times are ordered one way or the other |
| Title.LexLeTransitive | App.tsx:39 | the order on times is transitive |
| Title.LexLeAntisymmetric | App.tsx:39 | two times each at most the other are equal, so the sorted permutation that `SortCorrect` describes is unique |
| Title.Insert | App.tsx:39 | inserting one time adds exactly that time to the multiset of times |
| Title.InsertSorted | App.tsx:39 | inserting into a sorted list keeps it sorted |
| Title.Sort | App.tsx:39 | reference definition with no contract of its own: insertion sort by the character order; `SortSorted` and `SortPermutes` state that it sorts and permutes |
| Title.SortSorted | App.tsx:39 | the sort returns the times in ascending order |
| Title.SortPermutes | App.tsx:39 | the sort keeps every time, duplicates included, and adds none |
| Title.SortCorrect | App.tsx:39 | the sort returns its input in ascending order, keeping every time, duplicates included |
| Title.ActiveTimes | App.tsx:37-40 | a time is listed if and only if some active alarm shows it; the list is empty exactly when no alarm is active, and it is never longer than the list of alarms |
| Title.ActiveTimesAppend | App.tsx:37-40 | the times of a concatenation are the times of each part, one after the other, duplicates kept |
| Title.ActiveTimesSingle | App.tsx:37-40 | one alarm contributes its time exactly when it is active; with `ActiveTimesAppend` this gives one entry per active alarm, in list order |
| Title.SortedActiveTimes | App.tsx:37-40 | the listed times are sorted and are a permutation of the active alarms' times |
| Title.SortedActiveTimesEmpty | App.tsx:42 | there are times to list exactly when some alarm is active |
| Title.Join | App.tsx:43 | reference definition with no contract of its own: `join(' ~ ')`; `JoinAppend` states how it splits |
| Title.JoinAppend | App.tsx:43 | joining two non-empty lists puts exactly one " ~ " between their two joins |
| Title.DocumentTitle | App.tsx:28-47 | the title opens with '(' exactly when some alarm is active, and then it is the sorted active times joined by " ~ " in parentheses, then the screen name and the application suffix; when no alarm is active it is exactly the screen name and the suffix |
| App.InitialTheme | App.tsx:13-16 | a stored non-empty theme is used as it is; otherwise the theme is "light" |
| App.ToggledTheme | App.tsx:141 | the toggle gives "light" exactly from "dark", and "dark" from anything else |
| App.ToggleThemeTwice | App.tsx:141 | toggling a valid theme twice gives it back |
| App.Dismissed | App.tsx:104-106 | the length is kept; only the alarms carrying a non-empty ringing id are switched off, with every other field kept; all other alarms are unchanged |
| App.Controller.constructor | App.tsx:18-25 | the list is the stored one or empty and is persisted; nothing is ringing, there is no handle and no pending preview stop |
| App.Controller.StopAudio | App.tsx:89-94 | the handle is stopped as `Stopped` describes; nothing else changes |
| App.Controller.PlayAudio | App.tsx:79-87 | the handle becomes `Played(old, key, loop)`; the pending preview stop, the list and the ringing id are kept |
| App.Controller.PreviewSound | App.tsx:96-100 | the key is played once, not looped, and exactly one preview stop is pending afterwards; the list and the ringing id are kept |
| App.Controller.FirePreviewTimeout | App.tsx:99 | the stale stop halts whatever is playing now and nothing is pending afterwards |
| App.Controller.Tick | App.tsx:63-77 | the current time is the "HH:MM" of (h, m); the list is unchanged; the ringing id and the handle become what the fired alarms leave behind |
| App.Controller.RingMatching | App.tsx:68-74 | every alarm is checked against the pre-tick ringing id; the ringing id and the handle are those that the fired alarms leave behind when processed in list order; the list stays unchanged and persisted |
| App.Controller.StopAlarm | App.tsx:102-108 | the audio is stopped, the ringing id is cleared and the list becomes `Dismissed`; the list stays persisted |
| App.Controller.AddAlarm | App.tsx:110-116 | the list becomes `Added` and is persisted; the ringing id and the audio are untouched |
| App.Controller.UpdateAlarm | App.tsx:118-120 | the list becomes `Updated` and is persisted; the ringing id and the audio are untouched |
| App.Controller.DeleteAlarm | App.tsx:122-124 | the list becomes `Deleted` and is persisted; the ringing id and the audio are left as they were, even when the deleted alarm is the one ringing |
| App.AlarmSilencedByStalePreview | App.tsx:79-100 | a preview followed by an alarm firing within three seconds leaves the alarm ringing but silent once the preview's stop fires |
| AlarmView.TogglePatch | AlarmView.tsx:24 | reference definition with no contract of its own: the patch with `active` negated and the activation time set to now or cleared; `ToggleApplied` states its effect |
| AlarmView.ToggleApplied | AlarmView.tsx:23-25 | the switched alarm has `active` negated; its activation time is `now` when it comes on and absent when it goes off; every other field is kept |
| AlarmView.ToggleTwice | AlarmView.tsx:24 | switching twice restores `active`, and only the activation time may differ |
| AlarmView.ToggleInList | AlarmView.tsx:23-25 | through `updateAlarm`, the switched alarm has `active` negated; every alarm keeps its id, time, label and sound; alarms with other ids are untouched |
| AlarmView.HandleToggleActive | AlarmView.tsx:23-25 | the controller's list becomes the update with the switch's patch; the ringing id and the audio are untouched |
| Countdown.Next | TimerView.tsx:9-18 | reference definition with no contract of its own: one run of the effect both countdown screens share (PomodoroView.tsx:9-18 is the same); `NextStep` and the lemmas below state its properties |
| Countdown.NextStep | TimerView.tsx:11-16 | a step takes off exactly one second or none; a running countdown with time left decrements; a step notifies exactly when it finds the countdown running at zero, and then the countdown stops at zero; a paused countdown does not move |
| Countdown.PausedStays | TimerView.tsx:9-18 | a paused countdown stays put and never notifies, however many steps follow |
| Countdown.SecondsNeverGrow | TimerView.tsx:12 | the seconds left never grow |
| Countdown.FinishesOnce | TimerView.tsx:11-16 | started at `n`, the countdown is stopped at zero after `n+1` steps, having notified exactly once, and no further step notifies again |
| Countdown.QuietBeforeZero | TimerView.tsx:11-12 | during its first `n` steps a countdown started at `n` runs down one second per step without notifying |
| Countdown.RestartAtZero | TimerView.tsx:13-16 | starting again at zero finishes at once and notifies again |
| TimerView.FormatSeconds | TimerView.tsx:20-24 | the text parses back as (s div 60, s mod 60); it is at least five characters long, exactly five below 100 minutes, and starts with '0' exactly below 10 minutes |
| TimerView.FormatDetermines | TimerView.tsx:20-24 | different second counts never show the same text |
| TimerView.Timer.constructor | TimerView.tsx:6-7 | 300 seconds, not running |
| TimerView.Timer.Step | TimerView.tsx:9-18 | the state advances by `Countdown.Next`; on the finishing step `timer_beep` is played looped; otherwise the audio is untouched |
| TimerView.Timer.Toggle | TimerView.tsx:30 | the button flips the running flag and keeps the seconds |
| TimerView.Timer.Reset | TimerView.tsx:33 | not running, 300 seconds, and the audio stopped |
| PomodoroView.DisplayText | PomodoroView.tsx:24 | the text parses back as (s div 60, s mod 60), has the ':' three characters from the end, and the minutes are unpadded: four characters exactly below ten minutes, and a leading '0' exactly below one minute |
| PomodoroView.DisplayDetermines | PomodoroView.tsx:24 | different second counts never show the same text |
| PomodoroView.Pomodoro.constructor | PomodoroView.tsx:6-7 | 1500 seconds, not running |
| PomodoroView.Pomodoro.Step | PomodoroView.tsx:9-18 | the state advances by `Countdown.Next`; on the finishing step "forest" is played once, not looped; otherwise the audio is untouched |
| PomodoroView.Pomodoro.Toggle | PomodoroView.tsx:27 | the button flips the running flag and keeps the seconds |
| PomodoroView.OnFinished | App.tsx:162 | the reported sound is played once through the controller, not looped |
| StopwatchView.Split | StopwatchView.tsx:22-24 | seconds are in [0,59] and hundredths in [0,99]; mins·60000 + secs·1000 + cents·10 + ms mod 10 == ms |
| StopwatchView.SplitSum | StopwatchView.tsx:22-24 | minutes, seconds, hundredths and the last millisecond digit add back up to the milliseconds |
| StopwatchView.FormatMillis | StopwatchView.tsx:21-26 | the text parses back as exactly the split parts; it has at least eight characters, exactly eight below 100 minutes, and starts with '0' exactly below 10 minutes, so from 100 minutes on the minutes are not padded |
| StopwatchView.TextOfParts | StopwatchView.tsx:25 | the "mm:ss.cc" text of valid parts parses back as those parts; ':' and '.' sit six and three characters from the end; it has eight characters when the minutes are below 100 |
| StopwatchView.FormatDetermines | StopwatchView.tsx:21-26 | two readings that show the same text agree to the hundredth of a second |
| StopwatchView.Stopwatch.constructor | StopwatchView.tsx:6-7 | stopped at zero |
| StopwatchView.Stopwatch.Animate | StopwatchView.tsx:10-13 | a frame adds exactly 10 ms, so the time never decreases |
| StopwatchView.Stopwatch.Toggle | StopwatchView.tsx:32 | the button flips the running flag and keeps the time |
| StopwatchView.Stopwatch.Reset | StopwatchView.tsx:35 | stopped, and the time back at zero |

## Left out

- Rendering: JSX, CSS, navigation, the ringing overlay and the dashboard screen
  are presentation only. The shown screen is a parameter of `DocumentTitle`.
  The writes to `document.title` and to the `dark` class are not modelled.
- Device storage and JSON: the storage write is modelled as `stored := alarms`
  after every change of the list. Reading the list at start-up is a parameter
  of the constructor, `Some(list)` or `None`, with the decoding left out. The
  theme write is not modelled.
- The audio element: it is reduced to an abstract playback record (sound
  entry, loop flag, playing). The network fetch, the `play()` promise and its
  rejection are not modelled, and neither is the rewind to position 0.
- Timers: `setInterval`, `setTimeout`, `requestAnimationFrame`, and React's
  effect re-subscription and batching are left out. They are replaced by
  explicit step methods.
- The countdown steps: each `Step` runs the effect once. One step is either
  one interval tick (a decrement) or the effect's finishing branch. After the
  step that reaches zero, the React effect runs the finishing branch at once,
  not a second later.
- Stopwatch frames: a frame is scheduled only while the stopwatch runs. The
  model leaves that scheduling to the caller, so `Animate` adds 10 ms
  whenever it is called.
- `Date`, time zones and daylight saving: the clock reading is given as whole
  hours, minutes and seconds.
- AlarmStore.Added: the suggested time is modelled as ((h+1) mod 24, m). The
  source adds 3,600,000 ms to a `Date`, and that differs across a
  daylight-saving change.
- Title.SortCorrect: the order is plain character order, not
  `localeCompare`. For well-formed "HH:MM" times both compare digit by digit.
- Types.LookupSound: only the eleven catalogue keys are found. In the source,
  a key naming a property inherited from the object prototype (such as
  "constructor") also returns a truthy value.
- Snooze: `snoozedUntil` is declared but never read or written, so there is no
  snooze behaviour to model.
- The alarm screen's own clock display and expanded-row state are UI only.
- No screen calls `previewSound`. The alarm screen takes it as a prop
  (AlarmView.tsx:14) and never calls it, and the timer and pomodoro screens declare
  it among their props but never destructure or call it (TimerView.tsx:5,
  PomodoroView.tsx:5). So the stale stop
  that `AlarmSilencedByStalePreview` shows is not reachable from the screens
  as shipped. The pomodoro screen also ignores its `stopAudio` prop.
- Audio.Played: a sound played once (loop false) ends on its own in the
  source when the file ends. The model has no notion of elapsed playback
  time, so `playing` stays true until the next stop.
- Mounting: only one screen is mounted at a time (App.tsx:158-162). Leaving
  the timer or pomodoro screen discards its state, including a running
  countdown, and coming back starts from the initial value. The model's
  `Timer`, `Pomodoro` and `Stopwatch` objects keep their state; unmounting is
  not modelled.
