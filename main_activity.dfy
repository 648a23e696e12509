/**
 * The activity's transport state machine. Each click handler, the media
 * engine's completion listener and the progress-bar timer task is a method;
 * every call they make on the two engines and on the timer is appended, in
 * order, to `trace`.
 */
module Activity {
  import opened Wrappers
  import opened KotlinInt
  import opened Sync
  import opened Engines

  const PlayLabel: string := "Play"
  const PauseLabel: string := "Pause"
  const NowPlayingPrefix: string := "Now Playing: "

  class MainActivity {
    /** The playlist built at start-up; never changed. */
    const mediaList: seq<AudioAsset>
    var curAssetIndex: nat
    /** `mediaPlayer.isPlaying` */
    var mediaPlaying: bool
    /** `seekBarUpdateTask != null` */
    var hasTask: bool
    /** The task is scheduled and not cancelled. */
    var taskLive: bool
    /** `sbPlayer.progress`, the progress bar */
    var progress: Int32
    /** `sbPlayerOffset.progress`, the sync offset slider, in milliseconds */
    var offset: Int32
    /** The speed slider */
    var speed: Speed
    /** `btnStart.text` */
    var buttonText: string
    /** `sourceFile.text` */
    var nowPlaying: string
    /** Every engine and timer call so far, in order. */
    var trace: seq<Cmd>

    /** The playlist has its two entries, the index points into it, and a live task is a created one. */
    ghost predicate WellFormed()
      reads this
    {
      |mediaList| == PlaylistLength && curAssetIndex < |mediaList| && (taskLive ==> hasTask)
    }

    /**
     * Between handlers: the media flag is what the logged calls left the media
     * engine in, the haptic engine mirrors it, the timer task is live exactly
     * while it plays, and the button offers the other transition.
     */
    ghost predicate Valid()
      reads this
    {
      && WellFormed()
      && mediaPlaying == EnginesAfter(trace).mediaPlaying
      && EnginesAfter(trace).hapticPlaying == mediaPlaying
      && taskLive == mediaPlaying
      && buttonText == (if mediaPlaying then PauseLabel else PlayLabel)
    }

    /** Both engines idle and no task live: what a reload starts from. */
    ghost predicate Halted()
      reads this
    {
      WellFormed() && !mediaPlaying && !taskLive && !EnginesAfter(trace).mediaPlaying && !EnginesAfter(trace).hapticPlaying
    }

    /** `onCreate`: the two assets are in place, and the first one is loaded. */
    constructor (first: AudioAsset, second: AudioAsset, outcome: LoadOutcome)
      ensures Valid()
      ensures mediaList == [first, second] && curAssetIndex == 0
      ensures trace == LoadAttempt(first, outcome)
      ensures !mediaPlaying && !hasTask && !taskLive && buttonText == PlayLabel
      ensures progress == 0 && offset == 0 && speed == DefaultSpeed
      ensures nowPlaying == NowPlayingPrefix + first.mediaFile
    {
      mediaList := [first, second];
      curAssetIndex := 0;
      mediaPlaying := false;
      hasTask := false;
      taskLive := false;
      progress := 0;
      offset := 0;
      speed := DefaultSpeed;
      buttonText := PlayLabel;
      nowPlaying := "";
      trace := [];
      new;
      PrepareForPlayback(outcome);
    }

    /** Issue one call: it is logged, and the engines' state moves by one step. */
    method Send(c: Cmd)
      modifies this`trace
      ensures trace == old(trace) + [c]
      ensures EnginesAfter(trace) == Step(old(EnginesAfter(trace)), c)
    {
      ReplaySnoc(Fresh, trace, c);
      trace := trace + [c];
    }

    /** The sync callback the haptic engine pulls its clock from; a pure read. */
    function Sample(position: Int32): (r: Int32)
      reads this
      ensures IntMin <= position + offset <= IntMax ==> r == position + offset
    {
      SyncSample(position, offset)
    }

    /**
     * `prepareForPlayback`: reset the controls, then load the current asset
     * into the media engine and then the haptic engine. A call that throws
     * ends the loading; the exception goes no further.
     */
    method PrepareForPlayback(outcome: LoadOutcome)
      requires Halted()
      modifies this
      ensures Valid()
      ensures trace == old(trace) + LoadAttempt(mediaList[curAssetIndex], outcome)
      ensures curAssetIndex == old(curAssetIndex) && hasTask == old(hasTask)
      ensures !mediaPlaying && !taskLive
      ensures buttonText == PlayLabel && progress == 0 && speed == DefaultSpeed && offset == 0
      ensures nowPlaying == NowPlayingPrefix + mediaList[curAssetIndex].mediaFile
    {
      var asset := mediaList[curAssetIndex];
      nowPlaying := NowPlayingPrefix + asset.mediaFile;
      buttonText := PlayLabel;
      progress := 0;
      speed := DefaultSpeed;
      offset := 0;
      ghost var before := trace;
      var mediaLoaded := LoadMedia(asset, outcome);
      ghost var afterMedia := trace;
      if mediaLoaded {
        LoadHaptic(asset, outcome);
      }
      LoadAttemptSplits(asset, outcome);
      if mediaLoaded {
        assert trace == before + MediaLoadCommands(asset) + HapticLoadCommands(asset)[..Issued(outcome) - 3];
      }
    }

    /** `mediaPlayer.run { reset(); setDataSource(..); prepare() }`; false when one of them throws. */
    method LoadMedia(asset: AudioAsset, outcome: LoadOutcome) returns (loaded: bool)
      modifies this`trace
      ensures loaded <==> Issued(outcome) > 3
      ensures trace == old(trace) + MediaLoadCommands(asset)[..if loaded then 3 else Issued(outcome)]
      ensures !EnginesAfter(trace).mediaPlaying && EnginesAfter(trace).hapticPlaying == old(EnginesAfter(trace).hapticPlaying)
    {
      var m := MediaLoadCommands(asset);
      Send(MediaReset);
      loaded := !outcome.Throws(0);
      assert trace == old(trace) + m[..1];
      if loaded {
        Send(MediaSetDataSource(asset.mediaFile));
        loaded := !outcome.Throws(1);
        Concat2(old(trace), m[0], m[1]);
        assert trace == old(trace) + m[..2];
      }
      if loaded {
        Send(MediaPrepare);
        loaded := !outcome.Throws(2);
        Concat3(old(trace), m[0], m[1], m[2]);
        assert trace == old(trace) + m[..3];
      }
    }

    /** `hapticPlayer.apply { reset(); setDataSource(.., syncCallback); prepare() }` */
    method LoadHaptic(asset: AudioAsset, outcome: LoadOutcome)
      requires Issued(outcome) > 3
      modifies this`trace
      ensures trace == old(trace) + HapticLoadCommands(asset)[..Issued(outcome) - 3]
      ensures EnginesAfter(trace).mediaPlaying == old(EnginesAfter(trace).mediaPlaying) && !EnginesAfter(trace).hapticPlaying
    {
      var h := HapticLoadCommands(asset);
      Send(HapticReset);
      var thrown := outcome.Throws(3);
      assert trace == old(trace) + h[..1];
      if !thrown {
        Send(HapticSetDataSource(asset.heFile, FullAmplitude, DefaultChannel));
        thrown := outcome.Throws(4);
        Concat2(old(trace), h[0], h[1]);
        assert trace == old(trace) + h[..2];
      }
      if !thrown {
        Send(HapticPrepare);
        Concat3(old(trace), h[0], h[1], h[2]);
        assert trace == old(trace) + h[..3];
      }
    }

    /** The play/pause button. */
    method TogglePlay()
      requires Valid()
      modifies this
      ensures Valid()
      ensures old(mediaPlaying) ==>
                trace == old(trace) + PauseCommands(old(hasTask)) && !mediaPlaying && buttonText == PlayLabel
      ensures !old(mediaPlaying) ==>
                trace == old(trace) + StartCommands() && mediaPlaying && buttonText == PauseLabel
      ensures hasTask == (old(hasTask) || !old(mediaPlaying))
      ensures curAssetIndex == old(curAssetIndex) && progress == old(progress) && offset == old(offset)
      ensures speed == old(speed) && nowPlaying == old(nowPlaying)
    {
      if mediaPlaying {
        Pause();
      } else {
        Start();
      }
    }

    /** The pause branch: media engine, haptic engine, button text, then the timer task. */
    method Pause()
      requires Valid() && mediaPlaying
      modifies this`trace, this`mediaPlaying, this`buttonText, this`taskLive
      ensures Valid()
      ensures trace == old(trace) + PauseCommands(hasTask) && !mediaPlaying && buttonText == PlayLabel
    {
      Send(MediaPause);
      mediaPlaying := false;
      Send(HapticPause);
      buttonText := PlayLabel;
      if hasTask {
        Send(CancelTask);
        taskLive := false;
        Concat3(old(trace), MediaPause, HapticPause, CancelTask);
      } else {
        Concat2(old(trace), MediaPause, HapticPause);
      }
    }

    /** The play branch: media engine, haptic engine, button text, then a new timer task. */
    method Start()
      requires Valid() && !mediaPlaying
      modifies this`trace, this`mediaPlaying, this`buttonText, this`taskLive, this`hasTask
      ensures Valid()
      ensures trace == old(trace) + StartCommands() && mediaPlaying && buttonText == PauseLabel && hasTask
    {
      Send(MediaStart);
      mediaPlaying := true;
      Send(HapticStart);
      buttonText := PauseLabel;
      hasTask, taskLive := true, true;
      ghost var engines := EnginesAfter(trace);
      assert engines.mediaPlaying && engines.hapticPlaying;
      Send(ScheduleTask(TickDelayMs, TickPeriodMs));
      assert EnginesAfter(trace) == engines;
      Concat3(old(trace), MediaStart, HapticStart, ScheduleTask(TickDelayMs, TickPeriodMs));
    }

    /** The stop button; it may be pressed in any state, idle included. */
    method Stop(outcome: LoadOutcome)
      requires WellFormed()
      modifies this
      ensures Valid()
      ensures trace == old(trace) + StopCommands(old(hasTask), mediaList[curAssetIndex], outcome)
      ensures !mediaPlaying && !taskLive && buttonText == PlayLabel
      ensures curAssetIndex == old(curAssetIndex) && hasTask == old(hasTask)
      ensures progress == 0 && speed == DefaultSpeed && offset == 0
      ensures nowPlaying == NowPlayingPrefix + mediaList[curAssetIndex].mediaFile
    {
      Halt();
      PrepareForPlayback(outcome);
      Regroup(old(trace), CancelIfAny(old(hasTask)), [PurgeTimer, HapticStop, MediaStop],
              LoadAttempt(mediaList[curAssetIndex], outcome));
    }

    /** The first half of stop: cancel the task if there is one, purge the timer, stop both engines. */
    method Halt()
      requires WellFormed()
      modifies this`trace, this`taskLive, this`mediaPlaying
      ensures Halted()
      ensures trace == old(trace) + CancelIfAny(old(hasTask)) + [PurgeTimer, HapticStop, MediaStop]
    {
      if hasTask {
        Send(CancelTask);
        taskLive := false;
      }
      ghost var cleaned := trace;
      Send(PurgeTimer);
      Send(HapticStop);
      Send(MediaStop);
      mediaPlaying := false;
      Concat3(cleaned, PurgeTimer, HapticStop, MediaStop);
    }

    /** The media engine reached the end of the track: its listener presses stop. */
    method Completion(outcome: LoadOutcome)
      requires Valid()
      modifies this
      ensures Valid()
      ensures trace == old(trace) + [MediaCompleted] + StopCommands(old(hasTask), mediaList[curAssetIndex], outcome)
      ensures !mediaPlaying && !taskLive && buttonText == PlayLabel
      ensures curAssetIndex == old(curAssetIndex) && hasTask == old(hasTask)
      ensures progress == 0 && speed == DefaultSpeed && offset == 0
      ensures nowPlaying == NowPlayingPrefix + mediaList[curAssetIndex].mediaFile
    {
      Send(MediaCompleted);
      mediaPlaying := false;
      Stop(outcome);
    }

    /** The next-track button: advance the index, press stop, press play. */
    method PlayNext(outcome: LoadOutcome)
      requires Valid()
      modifies this
      ensures Valid()
      ensures curAssetIndex == NextIndex(old(curAssetIndex))
      ensures trace == old(trace) + StopCommands(old(hasTask), mediaList[curAssetIndex], outcome) + StartCommands()
      ensures mediaPlaying && taskLive && hasTask && buttonText == PauseLabel
      ensures progress == 0 && speed == DefaultSpeed && offset == 0
      ensures nowPlaying == NowPlayingPrefix + mediaList[curAssetIndex].mediaFile
    {
      curAssetIndex := NextIndex(curAssetIndex);
      Stop(outcome);
      TogglePlay();
    }

    /** The progress bar was released at `p`: both engines seek to the same position. */
    method SeekTo(p: Int32, duration: Int32)
      requires Valid()
      modifies this
      ensures Valid()
      ensures progress == p
      ensures trace == old(trace) + SeekCommands(SeekPosition(duration, p))
      ensures mediaPlaying == old(mediaPlaying) && taskLive == old(taskLive) && hasTask == old(hasTask)
      ensures curAssetIndex == old(curAssetIndex) && offset == old(offset) && speed == old(speed)
      ensures buttonText == old(buttonText) && nowPlaying == old(nowPlaying)
    {
      progress := p;
      var newPos := SeekPosition(duration, p);
      Send(MediaSeekTo(newPos));
      Send(HapticSeekTo(newPos));
      Concat2(old(trace), MediaSeekTo(newPos), HapticSeekTo(newPos));
    }

    /**
     * The speed slider was released at `s`. Below Android 6.0 nothing is sent;
     * otherwise playback is started first if needed, then both speeds are set.
     */
    method SetSpeed(s: Speed, sdkAtLeastM: bool)
      requires Valid()
      modifies this
      ensures Valid()
      ensures speed == s
      ensures !sdkAtLeastM ==> trace == old(trace) && mediaPlaying == old(mediaPlaying)
      ensures sdkAtLeastM ==>
                trace == old(trace) + (if old(mediaPlaying) then [] else StartCommands()) + SpeedCommands(s)
      ensures sdkAtLeastM ==> mediaPlaying && taskLive && buttonText == PauseLabel
      ensures sdkAtLeastM ==> EnginesAfter(trace).mediaSpeed == Some(s) && EnginesAfter(trace).hapticSpeed == Some(s)
      ensures curAssetIndex == old(curAssetIndex) && progress == old(progress) && offset == old(offset)
      ensures nowPlaying == old(nowPlaying)
      ensures hasTask == (old(hasTask) || (sdkAtLeastM && !old(mediaPlaying)))
    {
      speed := s;
      if sdkAtLeastM {
        if !mediaPlaying {
          TogglePlay();
        }
        ghost var started := trace;
        Send(MediaSetSpeed(s));
        mediaPlaying := true;
        Send(HapticSetSpeed(s));
        Concat2(started, MediaSetSpeed(s), HapticSetSpeed(s));
        SpeedEffect(started, s);
      }
    }

    /** The user moved the offset slider; the next sample reads the new value. */
    method MoveOffset(d: Int32)
      requires Valid()
      modifies this`offset
      ensures Valid()
      ensures offset == d
      ensures forall position: Int32 :: Sample(position) == SyncSample(position, d)
    {
      offset := d;
    }

    /**
     * One run of the timer task, given the media engine's position and
     * duration. `completed` is false when the division throws (duration 0).
     */
    method Tick(position: Int32, duration: Int32) returns (completed: bool)
      requires Valid()
      modifies this`progress
      ensures Valid()
      ensures !mediaPlaying ==> completed && progress == old(progress)
      ensures mediaPlaying ==> (completed <==> duration != 0)
      ensures mediaPlaying && completed ==> Some(progress) == ProgressPercent(position, duration)
      ensures mediaPlaying && !completed ==> progress == old(progress)
    {
      completed := true;
      if mediaPlaying {
        match ProgressPercent(position, duration)
        case None =>
          completed := false;
        case Some(p) =>
          progress := p;
      }
    }
  }

  /** Starting at the first track, three presses of next end on the second track, playing. */
  method ThreeSwitches(first: AudioAsset, second: AudioAsset)
  {
    var activity := new MainActivity(first, second, Loaded);
    activity.PlayNext(Loaded);
    activity.PlayNext(Loaded);
    activity.PlayNext(Loaded);
    assert activity.curAssetIndex == 1;
    assert activity.mediaPlaying && activity.taskLive;
  }

  /** Seeking to the middle of a ten-second track sends 5000 ms to both engines. */
  method SeekToMiddle(first: AudioAsset, second: AudioAsset)
  {
    var activity := new MainActivity(first, second, Loaded);
    activity.TogglePlay();
    activity.MoveOffset(-50);
    ghost var before := activity.trace;
    activity.SeekTo(50, 10000);
    SeekHalfWay();
    assert activity.trace == before + [MediaSeekTo(5000), HapticSeekTo(5000)];
    SyncSampleDelays();
    assert activity.Sample(2000) == 1950;
  }
}
