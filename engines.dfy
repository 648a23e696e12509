/**
 * The two playback engines seen from outside: the `MediaPlayer` (the audio
 * engine and reference clock) and the `RichTapPlayer` (the haptic engine),
 * plus the progress-bar timer. Their internals are not modelled; what is
 * modelled is the log of calls the activity makes on them, and, as a fold over
 * that log, the state those calls leave each engine in.
 */
module Engines {
  import opened Wrappers
  import opened KotlinInt

  /** A playback speed multiplier (the speed slider's float value). */
  type Speed = r: real | r > 0.0 witness 1.0

  const DefaultSpeed: Speed := 1.0

  /** Amplitude scale and channel the haptic source is loaded with. */
  const FullAmplitude: int := 255
  const DefaultChannel: int := 0

  /** The progress-bar task runs at once and then every 100 ms. */
  const TickDelayMs: int := 0
  const TickPeriodMs: int := 100

  /** One playable unit: an audio file and the haptic-effect file that goes with it. */
  datatype AudioAsset = AudioAsset(mediaFile: string, heFile: string)

  /**
   * An entry of the engine log: a call on the media engine, on the haptic
   * engine or on the timer, or the media engine's one notification,
   * `MediaCompleted` (natural end of the track). `HapticSetDataSource`
   * always hands over the activity's sync callback as well, which is
   * `Activity.MainActivity.Sample`; the entry does not record it.
   */
  datatype Cmd =
    | MediaReset | MediaSetDataSource(path: string) | MediaPrepare
    | MediaStart | MediaPause | MediaStop | MediaSeekTo(ms: Int32) | MediaSetSpeed(speed: Speed)
    | MediaCompleted
    | HapticReset | HapticSetDataSource(file: string, amplitude: int, channel: int) | HapticPrepare
    | HapticStart | HapticPause | HapticStop | HapticSeekTo(hapticMs: Int32) | HapticSetSpeed(hapticSpeed: Speed)
    | ScheduleTask(delayMs: int, periodMs: int) | CancelTask | PurgeTimer

  predicate IsMediaCall(c: Cmd)
  {
    c.MediaReset? || c.MediaSetDataSource? || c.MediaPrepare? || c.MediaStart? || c.MediaPause? ||
    c.MediaStop? || c.MediaSeekTo? || c.MediaSetSpeed?
  }

  predicate IsHapticCall(c: Cmd)
  {
    c.HapticReset? || c.HapticSetDataSource? || c.HapticPrepare? || c.HapticStart? || c.HapticPause? ||
    c.HapticStop? || c.HapticSeekTo? || c.HapticSetSpeed?
  }

  predicate IsEngineCall(c: Cmd)
  {
    IsMediaCall(c) || IsHapticCall(c)
  }

  predicate IsTimerCall(c: Cmd)
  {
    c.ScheduleTask? || c.CancelTask? || c.PurgeTimer?
  }

  // ---------------------------------------------------------------------------
  // Engine state as a fold over the log

  /**
   * What the logged calls leave the engines in: whether each plays, and the
   * speed each was last set to since its last reset (None: none since).
   */
  datatype EngineState = EngineState(
    mediaPlaying: bool, hapticPlaying: bool, mediaSpeed: Option<Speed>, hapticSpeed: Option<Speed>)

  /** Freshly created engines. */
  const Fresh: EngineState := EngineState(false, false, None, None)

  /** The effect of one call. Setting the media engine's speed also starts it playing. */
  function Step(e: EngineState, c: Cmd): EngineState
  {
    match c
    case MediaStart => e.(mediaPlaying := true)
    case MediaSetSpeed(s) => e.(mediaPlaying := true, mediaSpeed := Some(s))
    case MediaPause => e.(mediaPlaying := false)
    case MediaStop => e.(mediaPlaying := false)
    case MediaCompleted => e.(mediaPlaying := false)
    case MediaReset => e.(mediaPlaying := false, mediaSpeed := None)
    case HapticStart => e.(hapticPlaying := true)
    case HapticSetSpeed(s) => e.(hapticSpeed := Some(s))
    case HapticPause => e.(hapticPlaying := false)
    case HapticStop => e.(hapticPlaying := false)
    case HapticReset => e.(hapticPlaying := false, hapticSpeed := None)
    case _ => e
  }

  /** The state after the calls of `t`, starting from `e`. */
  function Replay(e: EngineState, t: seq<Cmd>): EngineState
    decreases |t|
  {
    if t == [] then e else Replay(Step(e, t[0]), t[1..])
  }

  /** The state of the engines after the log `t`. */
  function EnginesAfter(t: seq<Cmd>): EngineState
  {
    Replay(Fresh, t)
  }

  /** Replaying a log in two parts is replaying it whole. */
  lemma {:induction false} ReplayAppend(e: EngineState, t: seq<Cmd>, u: seq<Cmd>)
    ensures Replay(e, t + u) == Replay(Replay(e, t), u)
    decreases |t|
  {
    if t == [] {
      assert t + u == u;
    } else {
      assert (t + u)[0] == t[0];
      assert (t + u)[1..] == t[1..] + u;
      ReplayAppend(Step(e, t[0]), t[1..], u);
    }
  }

  /** One more log entry moves the state by one step. */
  lemma {:induction false} ReplaySnoc(e: EngineState, t: seq<Cmd>, c: Cmd)
    ensures Replay(e, t + [c]) == Step(Replay(e, t), c)
  {
    ReplayAppend(e, t, [c]);
    assert [c][1..] == [];
  }

  /** A log of two entries is two steps. */
  lemma ReplayTwo(e: EngineState, x: Cmd, y: Cmd)
    ensures Replay(e, [x, y]) == Step(Step(e, x), y)
  {
    assert [x, y] == [x] + [y];
    assert [x] == [] + [x];
    ReplaySnoc(e, [x], y);
    ReplaySnoc(e, [], x);
  }

  /** A call that starts an engine playing. */
  predicate Starts(c: Cmd)
  {
    c.MediaStart? || c.MediaSetSpeed? || c.HapticStart?
  }

  /** Without a starting call, engines that do not play go on not playing. */
  lemma {:induction false} ReplayStaysQuiet(e: EngineState, t: seq<Cmd>)
    requires !e.mediaPlaying && !e.hapticPlaying
    requires forall i :: 0 <= i < |t| ==> !Starts(t[i])
    ensures !Replay(e, t).mediaPlaying && !Replay(e, t).hapticPlaying
    decreases |t|
  {
    if t != [] {
      assert forall i :: 0 <= i < |t[1..]| ==> t[1..][i] == t[i + 1];
      ReplayStaysQuiet(Step(e, t[0]), t[1..]);
    }
  }

  lemma Concat2(t: seq<Cmd>, a: Cmd, b: Cmd)
    ensures t + [a] + [b] == t + [a, b]
  {
  }

  lemma Concat3(t: seq<Cmd>, a: Cmd, b: Cmd, c: Cmd)
    ensures t + [a] + [b] + [c] == t + [a, b, c]
  {
  }

  lemma Regroup(t: seq<Cmd>, u: seq<Cmd>, v: seq<Cmd>, w: seq<Cmd>)
    ensures t + u + v + w == t + (u + v + w)
  {
  }

  // ---------------------------------------------------------------------------
  // Ordering

  /** Some `a` comes strictly before some `b` in `t`. */
  ghost predicate Before(t: seq<Cmd>, a: Cmd, b: Cmd)
  {
    exists i, j :: 0 <= i < j < |t| && t[i] == a && t[j] == b
  }

  /** Every entry satisfying `p` comes before every entry satisfying `q`. */
  ghost predicate AllBefore(t: seq<Cmd>, p: Cmd -> bool, q: Cmd -> bool)
  {
    forall i, j :: 0 <= i < |t| && 0 <= j < |t| && p(t[i]) && q(t[j]) ==> i < j
  }

  // ---------------------------------------------------------------------------
  // The call sequences of the click handlers

  /** `seekBarUpdateTask?.cancel()`: a cancel only when a task was ever created. */
  function CancelIfAny(hasTask: bool): seq<Cmd>
  {
    if hasTask then [CancelTask] else []
  }

  /** The play branch of the play/pause button. */
  function StartCommands(): seq<Cmd>
  {
    [MediaStart, HapticStart, ScheduleTask(TickDelayMs, TickPeriodMs)]
  }

  /** The pause branch of the play/pause button. */
  function PauseCommands(hasTask: bool): seq<Cmd>
  {
    [MediaPause, HapticPause] + CancelIfAny(hasTask)
  }

  function MediaLoadCommands(a: AudioAsset): seq<Cmd>
  {
    [MediaReset, MediaSetDataSource(a.mediaFile), MediaPrepare]
  }

  function HapticLoadCommands(a: AudioAsset): seq<Cmd>
  {
    [HapticReset, HapticSetDataSource(a.heFile, FullAmplitude, DefaultChannel), HapticPrepare]
  }

  /** Loading an asset into both engines, media engine first. */
  function LoadCommands(a: AudioAsset): seq<Cmd>
  {
    MediaLoadCommands(a) + HapticLoadCommands(a)
  }

  /** Index of one of the six load calls. */
  type LoadStep = k: nat | k < 6

  /** How the load calls of one `prepareForPlayback` fare: all return, or call `step` throws. */
  datatype LoadOutcome = Loaded | ThrowsAt(step: LoadStep)
  {
    predicate Throws(k: nat) { ThrowsAt? && step == k }
  }

  /** How many load calls are issued: up to and including the one that throws. */
  function Issued(outcome: LoadOutcome): nat
  {
    match outcome
    case Loaded => 6
    case ThrowsAt(k) => k + 1
  }

  /** The load calls actually issued; after a throw the rest of the `try` block is skipped. */
  function LoadAttempt(a: AudioAsset, outcome: LoadOutcome): seq<Cmd>
  {
    LoadCommands(a)[..Issued(outcome)]
  }

  /** The issued load calls are a prefix of the media load, then a prefix of the haptic load. */
  lemma LoadAttemptSplits(a: AudioAsset, outcome: LoadOutcome)
    ensures Issued(outcome) <= 3 ==> LoadAttempt(a, outcome) == MediaLoadCommands(a)[..Issued(outcome)]
    ensures Issued(outcome) > 3 ==>
              LoadAttempt(a, outcome) == MediaLoadCommands(a) + HapticLoadCommands(a)[..Issued(outcome) - 3]
  {
    var n := Issued(outcome);
    if n <= 3 {
      assert LoadAttempt(a, outcome) == MediaLoadCommands(a)[..n];
    } else {
      assert LoadAttempt(a, outcome) == MediaLoadCommands(a) + HapticLoadCommands(a)[..n - 3];
    }
  }

  /** The stop button: timer cleanup, haptic stop, media stop, then reload. */
  function StopCommands(hasTask: bool, a: AudioAsset, outcome: LoadOutcome): seq<Cmd>
  {
    CancelIfAny(hasTask) + [PurgeTimer, HapticStop, MediaStop] + LoadAttempt(a, outcome)
  }

  /** Releasing the progress bar: both engines seek to the same position. */
  function SeekCommands(position: Int32): seq<Cmd>
  {
    [MediaSeekTo(position), HapticSeekTo(position)]
  }

  /** Releasing the speed slider, once the media engine plays. */
  function SpeedCommands(s: Speed): seq<Cmd>
  {
    [MediaSetSpeed(s), HapticSetSpeed(s)]
  }

  // ---------------------------------------------------------------------------
  // Properties of the call sequences

  /** Start: media engine before haptic engine, and the timer only once both run. */
  lemma StartOrder()
    ensures Before(StartCommands(), MediaStart, HapticStart)
    ensures AllBefore(StartCommands(), IsEngineCall, IsTimerCall)
  {
    assert StartCommands()[0] == MediaStart && StartCommands()[1] == HapticStart;
  }

  /** Pause: media engine before haptic engine; the task is cancelled iff it exists. */
  lemma PauseOrder(hasTask: bool)
    ensures Before(PauseCommands(hasTask), MediaPause, HapticPause)
    ensures AllBefore(PauseCommands(hasTask), IsEngineCall, IsTimerCall)
    ensures CancelTask in PauseCommands(hasTask) <==> hasTask
  {
    var t := PauseCommands(hasTask);
    assert t[0] == MediaPause && t[1] == HapticPause;
  }

  /** Reload: every call is on the asset's own files, and every media call precedes every haptic call. */
  lemma LoadOrder(a: AudioAsset, outcome: LoadOutcome)
    ensures AllBefore(LoadAttempt(a, outcome), IsMediaCall, IsHapticCall)
    ensures forall c :: c in LoadAttempt(a, outcome) && c.MediaSetDataSource? ==> c.path == a.mediaFile
    ensures forall c :: c in LoadAttempt(a, outcome) && c.HapticSetDataSource? ==>
              c == HapticSetDataSource(a.heFile, FullAmplitude, DefaultChannel)
    ensures MediaReset in LoadAttempt(a, outcome)
  {
    var t := LoadAttempt(a, outcome);
    assert t[0] == MediaReset;
    forall i | 0 <= i < |t|
      ensures t[i] == LoadCommands(a)[i]
      ensures IsMediaCall(t[i]) <==> i < 3
    {
    }
  }

  /** A throw: the calls after it are skipped; one in the media load skips the whole haptic load. */
  lemma LoadFailureSkipsRest(a: AudioAsset, k: LoadStep)
    ensures |LoadAttempt(a, ThrowsAt(k))| == k + 1
    ensures k < 3 ==> forall c :: c in LoadAttempt(a, ThrowsAt(k)) ==> !IsHapticCall(c)
    ensures k < 5 ==> HapticPrepare !in LoadAttempt(a, ThrowsAt(k))
  {
    var t := LoadAttempt(a, ThrowsAt(k));
    forall i | 0 <= i < |t|
      ensures t[i] == LoadCommands(a)[i]
    {
    }
  }

  /** No load call is a timer call or a stop. */
  lemma LoadCallsAreNotHalts(a: AudioAsset, j: nat)
    requires j < |LoadCommands(a)|
    ensures !IsTimerCall(LoadCommands(a)[j]) && IsEngineCall(LoadCommands(a)[j])
    ensures LoadCommands(a)[j] != HapticStop && LoadCommands(a)[j] != MediaStop
  {
  }

  /** Where each entry of the stop sequence comes from. */
  lemma StopEntry(hasTask: bool, a: AudioAsset, outcome: LoadOutcome, i: nat)
    requires i < |StopCommands(hasTask, a, outcome)|
    ensures var n := |CancelIfAny(hasTask)|;
      && (i < n ==> StopCommands(hasTask, a, outcome)[i] == CancelTask)
      && (i == n ==> StopCommands(hasTask, a, outcome)[i] == PurgeTimer)
      && (i == n + 1 ==> StopCommands(hasTask, a, outcome)[i] == HapticStop)
      && (i == n + 2 ==> StopCommands(hasTask, a, outcome)[i] == MediaStop)
      && (i >= n + 3 ==> i - n - 3 < 6 && StopCommands(hasTask, a, outcome)[i] == LoadCommands(a)[i - n - 3])
  {
    var n := |CancelIfAny(hasTask)|;
    var halt := CancelIfAny(hasTask) + [PurgeTimer, HapticStop, MediaStop];
    var load := LoadAttempt(a, outcome);
    assert StopCommands(hasTask, a, outcome) == halt + load;
    if i >= n + 3 {
      assert StopCommands(hasTask, a, outcome)[i] == load[i - n - 3];
    }
  }

  /** Stop: the timer task is cancelled (iff it exists) and purged before any engine call. */
  lemma StopCleansTimerFirst(hasTask: bool, a: AudioAsset, outcome: LoadOutcome)
    ensures AllBefore(StopCommands(hasTask, a, outcome), IsTimerCall, IsEngineCall)
    ensures CancelTask in StopCommands(hasTask, a, outcome) <==> hasTask
  {
    var t := StopCommands(hasTask, a, outcome);
    var n := |CancelIfAny(hasTask)|;
    forall i | 0 <= i < |t|
      ensures i < n + 1 <==> IsTimerCall(t[i])
      ensures IsTimerCall(t[i]) || IsEngineCall(t[i])
      ensures t[i] == CancelTask <==> i < n
    {
      StopEntry(hasTask, a, outcome, i);
      if i >= n + 3 {
        LoadCallsAreNotHalts(a, i - n - 3);
      }
    }
  }

  /** Stop: the haptic engine is stopped strictly before the media engine, once each. */
  lemma StopHapticBeforeMedia(hasTask: bool, a: AudioAsset, outcome: LoadOutcome)
    ensures Before(StopCommands(hasTask, a, outcome), HapticStop, MediaStop)
    ensures AllBefore(StopCommands(hasTask, a, outcome), c => c == HapticStop, c => c == MediaStop)
  {
    var t := StopCommands(hasTask, a, outcome);
    var n := |CancelIfAny(hasTask)|;
    forall i | 0 <= i < |t|
      ensures t[i] == HapticStop <==> i == n + 1
      ensures t[i] == MediaStop <==> i == n + 2
    {
      StopEntry(hasTask, a, outcome, i);
      if i >= n + 3 {
        LoadCallsAreNotHalts(a, i - n - 3);
      }
    }
    StopEntry(hasTask, a, outcome, n + 1);
    StopEntry(hasTask, a, outcome, n + 2);
  }

  /** Stop: the media engine is reset for the reload only after it has stopped. */
  lemma StopThenReload(hasTask: bool, a: AudioAsset, outcome: LoadOutcome)
    ensures Before(StopCommands(hasTask, a, outcome), MediaStop, MediaReset)
    ensures StopCommands(hasTask, a, outcome)[|StopCommands(hasTask, a, outcome)| - |LoadAttempt(a, outcome)|..]
            == LoadAttempt(a, outcome)
  {
    var n := |CancelIfAny(hasTask)|;
    StopEntry(hasTask, a, outcome, n + 2);
    StopEntry(hasTask, a, outcome, n + 3);
    var halt := CancelIfAny(hasTask) + [PurgeTimer, HapticStop, MediaStop];
    assert StopCommands(hasTask, a, outcome) == halt + LoadAttempt(a, outcome);
  }

  /** Both engines play after the start calls, whatever they did before. */
  lemma StartEffect(t: seq<Cmd>)
    ensures EnginesAfter(t + StartCommands()).mediaPlaying && EnginesAfter(t + StartCommands()).hapticPlaying
  {
    ReplayAppend(Fresh, t, StartCommands());
  }

  /** Neither engine plays after the pause calls. */
  lemma PauseEffect(t: seq<Cmd>, hasTask: bool)
    ensures !EnginesAfter(t + PauseCommands(hasTask)).mediaPlaying
    ensures !EnginesAfter(t + PauseCommands(hasTask)).hapticPlaying
  {
    ReplayAppend(Fresh, t, PauseCommands(hasTask));
    ReplayAppend(EnginesAfter(t), [MediaPause, HapticPause], CancelIfAny(hasTask));
    ReplayTwo(EnginesAfter(t), MediaPause, HapticPause);
  }

  /** Neither engine plays after the stop calls, whichever load call throws. */
  lemma StopEffect(t: seq<Cmd>, hasTask: bool, a: AudioAsset, outcome: LoadOutcome)
    ensures !EnginesAfter(t + StopCommands(hasTask, a, outcome)).mediaPlaying
    ensures !EnginesAfter(t + StopCommands(hasTask, a, outcome)).hapticPlaying
  {
    var cancel := CancelIfAny(hasTask);
    var load := LoadAttempt(a, outcome);
    Regroup(t, cancel, [PurgeTimer, HapticStop, MediaStop], load);
    Concat3(t + cancel, PurgeTimer, HapticStop, MediaStop);
    var halted := t + cancel + [PurgeTimer] + [HapticStop] + [MediaStop];
    ReplaySnoc(Fresh, t + cancel + [PurgeTimer] + [HapticStop], MediaStop);
    ReplaySnoc(Fresh, t + cancel + [PurgeTimer], HapticStop);
    ReplayAppend(Fresh, halted, load);
    forall i | 0 <= i < |load|
      ensures !Starts(load[i])
    {
      assert load[i] == LoadCommands(a)[i];
    }
    ReplayStaysQuiet(EnginesAfter(halted), load);
  }

  /** After the speed calls both engines hold the new speed, and the media engine plays. */
  lemma SpeedEffect(t: seq<Cmd>, s: Speed)
    ensures EnginesAfter(t + SpeedCommands(s)).mediaSpeed == Some(s)
    ensures EnginesAfter(t + SpeedCommands(s)).hapticSpeed == Some(s)
    ensures EnginesAfter(t + SpeedCommands(s)).mediaPlaying
    ensures EnginesAfter(t + SpeedCommands(s)).hapticPlaying == EnginesAfter(t).hapticPlaying
  {
    ReplayAppend(Fresh, t, SpeedCommands(s));
    ReplayTwo(EnginesAfter(t), MediaSetSpeed(s), HapticSetSpeed(s));
  }

  /** Seeking changes neither engine's state, and both engines seek to one position. */
  lemma SeekEffect(t: seq<Cmd>, position: Int32)
    ensures EnginesAfter(t + SeekCommands(position)) == EnginesAfter(t)
    ensures Before(SeekCommands(position), MediaSeekTo(position), HapticSeekTo(position))
  {
    ReplayAppend(Fresh, t, SeekCommands(position));
    ReplayTwo(EnginesAfter(t), MediaSeekTo(position), HapticSeekTo(position));
    assert SeekCommands(position)[0] == MediaSeekTo(position);
    assert SeekCommands(position)[1] == HapticSeekTo(position);
  }
}
