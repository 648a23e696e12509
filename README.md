# RichTap audio + haptic player: transport state machine

This project models the core of the sample's single screen, `MainActivity`.
The activity drives two playback engines from one set of buttons and sliders:

- the Android `MediaPlayer`, which plays the audio and is the reference clock;
- the RichTap haptic player, which plays a vibration pattern.

A sync callback lets the haptic player pull its clock from the media player's
position, plus a user-chosen offset in milliseconds.

The activity is the class `Activity.MainActivity`. Its fields are:

- the playlist index;
- whether the media engine plays;
- whether a progress-bar timer task exists, and whether it is live;
- the progress bar, the offset slider and the speed slider;
- the two labels;
- `trace`, the ordered log of every call made on the media engine, the
  haptic engine and the timer.

Each click handler, the completion listener and the timer task's body is a
method that appends its calls to `trace`. The state the engines are left in
is a fold over that log (`Engines.EnginesAfter`).

The class invariant `Valid()` holds between handlers. It says:

- the activity's media flag is what the logged calls left the media engine in;
- the haptic engine mirrors the media engine;
- the timer task is live exactly while the audio plays;
- the play button shows the transition it offers.

Every handler keeps this invariant. Each handler's `ensures` states the exact
call sequence it appends. Separate lemmas prove the order of those calls:

- media before haptic on start, pause and load;
- timer cleanup, then haptic stop, then media stop, on stop.

The arithmetic is that of Kotlin `Int`:

- products wrap around at 32 bits (`KotlinInt.Wrap`);
- division truncates toward zero (`KotlinInt.Div`);
- a division by zero is an error outcome (`None`, or `completed == false`).

Host inputs become parameters:

- the media engine's position and duration in `Tick` and `SeekTo`;
- the Android version check in `SetSpeed`;
- which load call, if any, throws (`Engines.LoadOutcome`).

The model follows the code as written:

- Stop may be pressed in any state, idle included, and always runs its full
  call sequence.
- An exception from any of the six load calls in `prepareForPlayback` is caught
  and printed. The calls after it are skipped, and the activity goes on as if
  loaded.
- Seeking is not restricted to a started session; a release of the progress
  bar seeks in any state.
- The raw percentage `100 * position / duration` is written to the progress
  bar without clamping. A zero duration throws inside the timer task.
- For a track longer than `IntMax / 100` ms (about 5.97 hours),
  `duration * progress` can overflow, and the seek then goes to a wrong
  position. Just past that point, a seek to the end of the bar goes to a
  negative position (`Sync.SeekPositionWrapsForLongTracks`).

## Model

| member | source | states |
|---|---|---|
| KotlinInt.Wrap | app/src/main/java/com/example/richtapaudioplayer/MainActivity.kt:108 | the result is a 32-bit `Int` equal to the exact value when that fits, and congruent to it modulo 2^32 otherwise |
| KotlinInt.Div | app/src/main/java/com/example/richtapaudioplayer/MainActivity.kt:205 | Kotlin `Int` division: truncates toward zero (the magnitude is the quotient of the magnitudes, the sign is the sign of the operands), equals floor division for non-negative operands, and `IntMin / -1` wraps to `IntMin` |
| Sync.SyncSample | app/src/main/java/com/example/richtapaudioplayer/MainActivity.kt:34-36 | the sync callback returns the media position plus the offset slider's value; with a zero offset it is exactly the media position |
| Sync.SyncSampleDelays | app/src/main/java/com/example/richtapaudioplayer/MainActivity.kt:30-35 | a negative offset delays the haptic clock: position 2000 with offset -50 is reported as 1950 |
| Sync.SeekPosition | app/src/main/java/com/example/richtapaudioplayer/MainActivity.kt:108 | the seek position is 0 at the start of the bar or on an empty track, and the full duration at the end of the bar for any track short enough that the product does not overflow |
| Sync.SeekPositionInRange | app/src/main/java/com/example/richtapaudioplayer/MainActivity.kt:108 | for progress in 0..100 and a duration below the overflow point, the seek position is `duration * progress / 100` rounded down, lies in `[0, duration]`, is 0 at the start of the bar and the full duration at its end |
| Sync.SeekHalfWay | app/src/main/java/com/example/richtapaudioplayer/MainActivity.kt:108 | releasing the bar at 50 on a 10000 ms track seeks to 5000 ms |
| Sync.SeekPositionWrapsForLongTracks | app/src/main/java/com/example/richtapaudioplayer/MainActivity.kt:108 | for a duration one past `IntMax / 100`, releasing the bar at its end seeks to a negative position, because the `Int` product wraps around |
| Sync.ProgressPercent | app/src/main/java/com/example/richtapaudioplayer/MainActivity.kt:205 | there is no percentage exactly when the duration is 0 (Kotlin's division throws) |
| Sync.ProgressPercentInRange | app/src/main/java/com/example/richtapaudioplayer/MainActivity.kt:205 | for a position within the track and below the overflow point, the percentage is `100 * position / duration` rounded down, lies in 0..100, and is 100 at the end of the track |
| Sync.NextIndex | app/src/main/java/com/example/richtapaudioplayer/MainActivity.kt:87 | the next index is always a valid playlist index, and from a valid index it is a different one, namely `(index + 1) mod 2` |
| Sync.AdvancedCycles | app/src/main/java/com/example/richtapaudioplayer/MainActivity.kt:84-91 | n presses of next from index i land on `(i + n) mod 2` |
| Sync.SwitchingIsPeriodic | app/src/main/java/com/example/richtapaudioplayer/MainActivity.kt:84-91 | next is 2-periodic: n + 2 presses land where n presses do |
| Sync.ThreeSwitchesFromFirst | app/src/main/java/com/example/richtapaudioplayer/MainActivity.kt:84-91 | three presses of next from the first track land on the second track |
| Engines.StartOrder | app/src/main/java/com/example/richtapaudioplayer/MainActivity.kt:62-67 | on play, the media engine starts before the haptic engine, and the timer task is scheduled only after every engine call |
| Engines.PauseOrder | app/src/main/java/com/example/richtapaudioplayer/MainActivity.kt:57-60 | on pause, the media engine pauses before the haptic engine, all engine calls precede the timer call, and a cancel is issued iff a task was ever created |
| Engines.LoadOrder | app/src/main/java/com/example/richtapaudioplayer/MainActivity.kt:160-171 | every media load call precedes every haptic load call; both sources are the current asset's own files, and the haptic source is loaded at amplitude 255 on channel 0; the media reset is always issued |
| Engines.LoadFailureSkipsRest | app/src/main/java/com/example/richtapaudioplayer/MainActivity.kt:160-174 | a throw at load call k leaves exactly k + 1 calls issued; a throw in the media load issues no haptic call; a throw before the haptic prepare never prepares the haptic engine |
| Engines.StopCleansTimerFirst | app/src/main/java/com/example/richtapaudioplayer/MainActivity.kt:73-77 | on stop, the task cancel (issued iff a task exists) and the purge come before every engine call |
| Engines.StopHapticBeforeMedia | app/src/main/java/com/example/richtapaudioplayer/MainActivity.kt:76-77 | on stop, the haptic engine is stopped strictly before the media engine |
| Engines.StopThenReload | app/src/main/java/com/example/richtapaudioplayer/MainActivity.kt:77-79 | on stop, the media engine is reset only after it has stopped, and the stop sequence ends with the reload's calls |
| Engines.StartEffect | app/src/main/java/com/example/richtapaudioplayer/MainActivity.kt:62-63 | after the play calls both engines play, whatever state they were in |
| Engines.PauseEffect | app/src/main/java/com/example/richtapaudioplayer/MainActivity.kt:57-60 | after the pause calls neither engine plays |
| Engines.StopEffect | app/src/main/java/com/example/richtapaudioplayer/MainActivity.kt:73-80 | after the stop calls and the reload neither engine plays, whichever load call throws |
| Engines.SpeedEffect | app/src/main/java/com/example/richtapaudioplayer/MainActivity.kt:128-133 | after the speed calls both engines hold the new speed and the media engine plays; the haptic engine's play state is unchanged |
| Engines.SeekEffect | app/src/main/java/com/example/richtapaudioplayer/MainActivity.kt:107-111 | seeking changes neither engine's play state or speed, and the media engine seeks before the haptic engine |
| Activity.MainActivity.constructor | app/src/main/java/com/example/richtapaudioplayer/MainActivity.kt:48-51 | the playlist holds the two assets, the index is 0, the first asset's load calls are the whole log, nothing plays, no task exists, and the invariant holds |
| Activity.MainActivity.Sample | app/src/main/java/com/example/richtapaudioplayer/MainActivity.kt:34-36 | the callback the haptic engine is loaded with returns the media position plus the current offset |
| Activity.MainActivity.PrepareForPlayback | app/src/main/java/com/example/richtapaudioplayer/MainActivity.kt:152-175 | from halted engines: the labels and sliders are reset to their defaults, the log grows by the load calls actually issued for the current asset, nothing plays and the invariant holds, whichever call throws |
| Activity.MainActivity.LoadMedia | app/src/main/java/com/example/richtapaudioplayer/MainActivity.kt:161-165 | issues the media reset, source and prepare in order, up to the one that throws; reports whether all three returned; the media engine is left not playing |
| Activity.MainActivity.LoadHaptic | app/src/main/java/com/example/richtapaudioplayer/MainActivity.kt:167-171 | issues the haptic reset, the source at amplitude 255 on channel 0, and prepare in order, up to the one that throws; the haptic engine is left not playing |
| Activity.MainActivity.TogglePlay | app/src/main/java/com/example/richtapaudioplayer/MainActivity.kt:55-68 | from playing: appends the pause calls, nothing plays, the button reads Play; from not playing: appends the play calls, both engines play, the button reads Pause and a task exists; the invariant is kept and the other fields are unchanged |
| Activity.MainActivity.Pause | app/src/main/java/com/example/richtapaudioplayer/MainActivity.kt:56-60 | appends media pause, haptic pause and a cancel if a task exists; the button reads Play and the invariant is kept |
| Activity.MainActivity.Start | app/src/main/java/com/example/richtapaudioplayer/MainActivity.kt:61-67 | appends media start, haptic start and a schedule at delay 0 and period 100 ms; the button reads Pause, a live task exists and the invariant is kept |
| Activity.MainActivity.Halt | app/src/main/java/com/example/richtapaudioplayer/MainActivity.kt:74-77 | appends the cancel (if a task exists), the purge, the haptic stop and the media stop; both engines and the task are left halted |
| Activity.MainActivity.Stop | app/src/main/java/com/example/richtapaudioplayer/MainActivity.kt:73-80 | from any state: appends the stop sequence followed by the reload of the current asset; nothing plays, no task is live, the button reads Play, the sliders are reset and the invariant holds |
| Activity.MainActivity.Completion | app/src/main/java/com/example/richtapaudioplayer/MainActivity.kt:95-97 | the end-of-track notification is logged, then the stop sequence follows; nothing plays, no task is live, the labels and sliders are reset to the current asset and the defaults, and the invariant is restored |
| Activity.MainActivity.PlayNext | app/src/main/java/com/example/richtapaudioplayer/MainActivity.kt:84-91 | the index moves to the next playlist entry, the log grows by the stop sequence for the new asset and then the play calls, and the session ends playing with a live task |
| Activity.MainActivity.SeekTo | app/src/main/java/com/example/richtapaudioplayer/MainActivity.kt:106-111 | the progress bar holds the released value, and both engines are sent to the same position, the scaled duration, with no offset applied; nothing else changes |
| Activity.MainActivity.SetSpeed | app/src/main/java/com/example/richtapaudioplayer/MainActivity.kt:118-135 | below Android 6.0 no call is made; otherwise playback is started first when not playing, then both engines are sent the new speed, so both hold it and the session is playing with a live task; a task exists afterwards iff one existed before or playback was started here |
| Activity.MainActivity.MoveOffset | app/src/main/java/com/example/richtapaudioplayer/MainActivity.kt:34-35 | after the offset slider moves, every later sync sample adds the new offset |
| Activity.MainActivity.Tick | app/src/main/java/com/example/richtapaudioplayer/MainActivity.kt:202-209 | when not playing the progress bar is untouched; when playing it receives the percentage, or the tick fails (duration 0) and leaves it untouched |

The methods `Activity.ThreeSwitches` and `Activity.SeekToMiddle` are worked
scenarios. They have no contract of their own. Their assertions follow from the
handlers' contracts: three presses of next from the first track, and a seek to
the middle of a ten-second track with a -50 ms offset.

## Left out

- Timer threading: the timer task is modelled as `Activity.MainActivity.Tick`, called between handlers. Mutual exclusion with the handlers, and the timer being killed by an exception inside its task, are not modelled.
- Engine internals: the engines are modelled by the calls made on them; only a playing flag and the last speed set are kept per engine (`Engines.EngineState`). The error state a failed load leaves them in, and `start()` on an engine that was never prepared, are not modelled.
- Engines.Step: assumes of the engines that a start always makes an engine play; that setting the media engine's speed also starts it (as the comments at MainActivity.kt lines 125-127 and 131 say); that the completion notification, pause, stop and reset leave it not playing; and that a reset clears the last speed set. `Valid`, `StartEffect`, `SpeedEffect` and `StopEffect` rest on these assumptions.
- The haptic pattern's own end of playback is not modelled; only the media engine's completion notification is.
- Speeds are positive reals rather than Java floats; rounding of the slider value is not modelled.
- The progress widget's own clamping of `setProgress` to its range is not modelled; the field holds the value written.
- The Android version check is the `sdkAtLeastM` parameter of `SetSpeed`.
- `downloadAssets` and `dumpAssetToDataStorage` (file I/O): the constructor takes the two assets instead.
- `onCreate`'s listener wiring, the options menu, and `onDestroy`'s teardown are not modelled.
- The Now Playing label stores the file name after the prefix as plain string concatenation; Android string templates are not modelled.
