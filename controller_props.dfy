/**
 * Properties of the session controller: how each command leaves the state,
 * the phases the window moves through, and a whole recording session.
 */
module ControllerProperties {
  import opened Wrappers
  import opened Paths
  import opened Detection
  import opened Controller

  /**
   * A failed open reports the error and leaves polling and recording off, but
   * the handle stays assigned: the next click on the camera button runs
   * `stop_camera` rather than a new open attempt, so a retry takes two clicks.
   */
  lemma FailedOpenKeepsHandle(s: State, nextOpen: bool)
    requires Inv(s) && s.cap.None?
    ensures var r := Step(s, CameraButton(false));
      && r == StartCamera(s, false)
      && r.cap == Some(Capture(0, false))
      && r.status == OpenError
      && r.timer == Stopped && !r.recordEnabled && r.cameraText == StartCameraLabel
      && Step(r, CameraButton(nextOpen)) == StopCamera(r)
      && Step(Step(r, CameraButton(nextOpen)), CameraButton(nextOpen)) == StartCamera(StopCamera(r), nextOpen)
  {
  }

  /** A successful open starts polling every 20 ms and enables the record button. */
  lemma SuccessfulOpen(s: State)
    requires Inv(s) && s.cap.None?
    ensures var r := Step(s, CameraButton(true));
      r.cap == Some(Capture(0, true)) && r.timer == Running(PollIntervalMs) &&
      r.recordEnabled && r.cameraText == StopCameraLabel && r.status == CameraOn && !r.recording
  {
  }

  /**
   * Stopping the camera, from any reachable state, ends in the idle state with
   * both handles released; a recording in progress is finished first.
   */
  lemma StopCameraReleasesEverything(s: State)
    requires Inv(s)
    ensures var r := StopCamera(s);
      && r.cap == None && r.out == None && !r.recording && r.timer == Stopped
      && !r.recordEnabled && r.cameraText == StartCameraLabel && r.recordText == StartRecordingLabel
      && r.status == CameraOff
      && r.saved == (if s.recording then s.saved + [s.out.value] else s.saved)
      && PhaseOf(r) == Idle
  {
  }

  /** With the dialog cancelled, a click on "Start Recording" changes nothing. */
  lemma CancelledDialogIsNoOp(s: State, stamp: string, props: DeviceProps)
    requires Inv(s) && !s.recording
    ensures Step(s, RecordButton("", stamp, props)) == s
  {
  }

  /** The writer runs at the device's rate when that is positive and at 20.0 otherwise. */
  lemma WriterRateFallback(s: State, saveDir: string, stamp: string, props: DeviceProps)
    requires saveDir != "" && s.cap.Some?
    ensures props.fps > 0.0 ==> StartRecording(s, saveDir, stamp, props).out.value.fps == props.fps
    ensures props.fps <= 0.0 ==> StartRecording(s, saveDir, stamp, props).out.value.fps == 20.0
  {
  }

  /**
   * One tick that reads a frame: the status turns to the alert text exactly
   * when some box is alarm-class (and is otherwise left alone), one alarm is
   * requested per alerting tick, and exactly one frame is written exactly when
   * a recording is in progress.
   */
  lemma TickEffects(s: State, pixels: Pixels, results: seq<DetectorResult>)
    requires Inv(s) && s.timer.Running?
    ensures var r := Step(s, TimerTick(true, pixels, results));
      && r.status == (if Alert(results) then FireAlert else s.status)
      && r.alarmRequests == s.alarmRequests + (if Alert(results) then 1 else 0)
      && r.display == Some(Annotated(pixels, results))
      && (s.recording ==> r.out == Some(s.out.value.(frames := s.out.value.frames + [Annotated(pixels, results)])))
      && (!s.recording ==> r.out == None)
      && r.(status := s.status, alarmRequests := s.alarmRequests, display := s.display, out := s.out) == s
  {
  }

  /** A failed read only reports the error. */
  lemma FailedReadOnlyReports(s: State, pixels: Pixels, results: seq<DetectorResult>)
    requires Inv(s) && s.timer.Running?
    ensures Step(s, TimerTick(false, pixels, results)) == s.(status := ReadError)
  {
  }

  // ---- Phases ----

  /**
   * The phases of the window. `OpenFailed` is the state a failed open leaves:
   * a handle is held but nothing runs.
   */
  datatype Phase = Idle | OpenFailed | Live | Recording

  function PhaseOf(s: State): Phase
  {
    if s.cap.None? then Idle
    else if !s.cap.value.isOpened then OpenFailed
    else if s.recording then Recording
    else Live
  }

  /** The transitions the controls allow between phases. */
  predicate PhaseTransition(p: Phase, q: Phase)
  {
    match p
    case Idle => q == Idle || q == Live || q == OpenFailed
    case OpenFailed => q == OpenFailed || q == Idle
    case Live => q == Live || q == Recording || q == Idle
    case Recording => q == Recording || q == Live || q == Idle
  }

  /** Every event moves the window along one of the allowed phase transitions. */
  lemma StepFollowsPhases(s: State, e: Event)
    requires Inv(s)
    ensures PhaseTransition(PhaseOf(s), PhaseOf(Step(s, e)))
    ensures PhaseOf(s) == Recording <==> s.recording
    ensures PhaseOf(s) == Idle || PhaseOf(s) == OpenFailed <==> !s.recordEnabled
  {
  }

  // ---- Runs of events ----

  lemma {:induction false} RunAppend(s: State, a: seq<Event>, b: seq<Event>)
    requires Inv(s)
    ensures Run(s, a + b) == Run(Run(s, a), b)
    decreases |a|
  {
    if a == [] {
      assert a + b == b;
    } else {
      assert (a + b)[0] == a[0];
      assert (a + b)[1..] == a[1..] + b;
      RunAppend(Step(s, a[0]), a[1..], b);
    }
  }

  /** Ticks that each read a frame in which nothing is alarm-class. */
  predicate QuietTicks(ticks: seq<Event>)
  {
    forall k :: 0 <= k < |ticks| ==> ticks[k].TimerTick? && ticks[k].readOk && !Alert(ticks[k].results)
  }

  lemma QuietTickWhileRecording(s: State, e: Event)
    requires Inv(s) && s.recording
    requires e.TimerTick? && e.readOk && !Alert(e.results)
    ensures var frame := Annotated(e.pixels, e.results);
      Step(s, e) == s.(out := Some(s.out.value.(frames := s.out.value.frames + [frame])), display := Some(frame))
  {
  }

  /** The annotated frames of a sequence of ticks. */
  function TickFrames(ticks: seq<Event>): (frames: seq<FrameImage>)
    requires forall k :: 0 <= k < |ticks| ==> ticks[k].TimerTick?
    ensures |frames| == |ticks|
  {
    seq(|ticks|, k requires 0 <= k < |ticks| => Annotated(ticks[k].pixels, ticks[k].results))
  }

  /**
   * While recording, every quiet tick appends its annotated frame to the
   * writer; nothing else changes apart from the displayed frame.
   */
  lemma {:induction false} QuietTicksAppendFrames(s: State, ticks: seq<Event>)
    requires Inv(s) && s.recording
    requires QuietTicks(ticks)
    ensures var r := Run(s, ticks);
      && r.out == Some(s.out.value.(frames := s.out.value.frames + TickFrames(ticks)))
      && r.(out := s.out, display := s.display) == s
    decreases |ticks|
  {
    if ticks == [] {
      assert s.out.value.frames + TickFrames(ticks) == s.out.value.frames;
    } else {
      var frame := Annotated(ticks[0].pixels, ticks[0].results);
      var s1 := Step(s, ticks[0]);
      var w1 := s.out.value.(frames := s.out.value.frames + [frame]);
      assert s1 == s.(out := Some(w1), display := Some(frame)) by {
        QuietTickWhileRecording(s, ticks[0]);
      }
      assert QuietTicks(ticks[1..]) by {
        forall k | 0 <= k < |ticks| - 1 ensures ticks[1..][k] == ticks[k + 1] { }
      }
      QuietTicksAppendFrames(s1, ticks[1..]);
      assert Run(s, ticks) == Run(s1, ticks[1..]);
      assert s.out.value.frames + TickFrames(ticks) == w1.frames + TickFrames(ticks[1..]) by {
        assert TickFrames(ticks) == [frame] + TickFrames(ticks[1..]);
      }
    }
  }

  /** From the start: a successful open, then a confirmed "Start Recording". */
  lemma OpenThenRecord(saveDir: string, stamp: string, props: DeviceProps)
    requires saveDir != "" && IsStamp(stamp)
    ensures var s := Run(Init(), [CameraButton(true), RecordButton(saveDir, stamp, props)]);
      && s.recording && s.saved == [] && s.alarmRequests == 0
      && s.out == Some(Writer(Join(saveDir, FileName(stamp)), Codec, WriterFps(props.fps),
                              Trunc(props.width), Trunc(props.height), []))
      && s.status == RecordingTo(FileName(stamp))
  {
    var head := [CameraButton(true), RecordButton(saveDir, stamp, props)];
    var s1 := Step(Init(), head[0]);
    assert s1.recordEnabled && !s1.recording && s1.saved == [];
    var s2 := Step(s1, head[1]);
    assert s2 == StartRecording(s1, saveDir, stamp, props);
    StartRecordingEffects(s1, saveDir, stamp, props);
    assert Run(Init(), head) == Run(s1, head[1..]);
    assert Run(s1, head[1..]) == Run(s2, []) by {
      assert head[1..][0] == head[1] && head[1..][1..] == [];
    }
  }

  /** While recording: a click on "Stop Recording", then on "Stop Camera". */
  lemma StopRecordThenCamera(s: State, laterDir: string, laterStamp: string, laterProps: DeviceProps, laterOpen: bool)
    requires Inv(s) && s.recording
    ensures var r := Run(s, [RecordButton(laterDir, laterStamp, laterProps), CameraButton(laterOpen)]);
      && r.saved == s.saved + [s.out.value]
      && r.status == CameraOff && r.cap == None && r.out == None && r.timer == Stopped
      && r.alarmRequests == s.alarmRequests
  {
    var tail := [RecordButton(laterDir, laterStamp, laterProps), CameraButton(laterOpen)];
    var s1 := Step(s, tail[0]);
    assert s1 == StopRecording(s);
    var s2 := Step(s1, tail[1]);
    assert s2 == StopCamera(s1);
    assert Run(s, tail) == Run(s1, tail[1..]);
    assert Run(s1, tail[1..]) == Run(s2, []) by {
      assert tail[1..][0] == tail[1] && tail[1..][1..] == [];
    }
  }

  /**
   * A whole session: open the camera, start recording into `saveDir`, let some
   * quiet ticks pass, stop recording, stop the camera. Exactly one file is
   * left, named after the timestamp, holding one unalerted annotated frame per
   * tick, and the window is back to "Camera Off".
   */
  lemma RecordingSession(saveDir: string, stamp: string, props: DeviceProps, ticks: seq<Event>,
                         laterDir: string, laterStamp: string, laterProps: DeviceProps, laterOpen: bool)
    requires saveDir != "" && IsStamp(stamp)
    requires QuietTicks(ticks)
    ensures var r := Run(Init(),
        [CameraButton(true), RecordButton(saveDir, stamp, props)] + ticks +
        [RecordButton(laterDir, laterStamp, laterProps), CameraButton(laterOpen)]);
      && |r.saved| == 1
      && r.saved[0].path == Join(saveDir, FileName(stamp))
      && Basename(r.saved[0].path) == FileName(stamp)
      && r.saved[0].fps == WriterFps(props.fps)
      && r.saved[0].frames == TickFrames(ticks)
      && |r.saved[0].frames| == |ticks|
      && (forall k :: 0 <= k < |ticks| ==> Banner !in r.saved[0].frames[k].drawings)
      && r.status == CameraOff && r.cap == None && r.out == None && r.timer == Stopped
      && r.alarmRequests == 0
  {
    var s0 := Init();
    var head := [CameraButton(true), RecordButton(saveDir, stamp, props)];
    var tail := [RecordButton(laterDir, laterStamp, laterProps), CameraButton(laterOpen)];
    RunAppend(s0, head + ticks, tail);
    RunAppend(s0, head, ticks);
    OpenThenRecord(saveDir, stamp, props);
    var s2 := Run(s0, head);
    QuietTicksAppendFrames(s2, ticks);
    var s3 := Run(s2, ticks);
    StopRecordThenCamera(s3, laterDir, laterStamp, laterProps, laterOpen);
    StampFileNameHasNoSlash(stamp);
    BasenameOfJoin(saveDir, FileName(stamp));
    forall k | 0 <= k < |ticks|
      ensures Banner !in TickFrames(ticks)[k].drawings
    {
      AnnotatedShape(ticks[k].pixels, ticks[k].results);
    }
  }
}
