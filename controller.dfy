/**
 * The session controller of the fire/smoke detection window as a state
 * machine: the camera handle, the recording flag and writer, the polling
 * timer, the two buttons and the status line, and what each command does to
 * them. Collaborators outside the window are inputs: whether the camera
 * opened, the directory the dialog returned ("" when cancelled), the clock's
 * timestamp, the properties the device reports, the outcome of a frame read
 * and the detector's boxes.
 */
module Controller {
  import opened Wrappers
  import opened Paths
  import opened Detection

  /** The captions the two buttons show. */
  datatype ButtonLabel = StartCameraLabel | StopCameraLabel | StartRecordingLabel | StopRecordingLabel
  {
    function Text(): string
    {
      match this
      case StartCameraLabel => "Start Camera"
      case StopCameraLabel => "Stop Camera"
      case StartRecordingLabel => "Start Recording"
      case StopRecordingLabel => "Stop Recording"
    }
  }

  /** The messages the status label shows. */
  datatype Status = CameraOff | CameraOn | OpenError | ReadError | FireAlert | RecordingTo(fileName: string)
  {
    function Text(): string
    {
      match this
      case CameraOff => "Status: Camera Off"
      case CameraOn => "Status: Camera On"
      case OpenError => "Status: Error opening camera"
      case ReadError => "Status: Error reading frame"
      case FireAlert => "ALERT: Fire/Smoke Detected!"
      case RecordingTo(fileName) => "Status: Recording to " + fileName
    }
  }

  /** Distinct status messages show distinct texts, so the status label is determined by its text. */
  lemma StatusTextInjective(a: Status, b: Status)
    ensures a.Text() == b.Text() <==> a == b
  {
    var prefix := "Status: Recording to ";
    if a.RecordingTo? && b.RecordingTo? {
      if a.Text() == b.Text() {
        assert a.fileName == a.Text()[|prefix|..];
        assert b.fileName == b.Text()[|prefix|..];
      }
    } else if a.RecordingTo? || b.RecordingTo? {
      var r := if a.RecordingTo? then a else b;
      var o := if a.RecordingTo? then b else a;
      assert r.Text()[0] == 'S' && r.Text()[8] == 'R';
      assert o.Text()[0] != 'S' || o.Text()[8] != 'R';
    }
  }

  /** The polling period of the frame timer, in milliseconds. */
  const PollIntervalMs := 20
  /** The writer's frame rate when the device reports none. */
  const DefaultFps := 20.0
  /** The writer's codec tag. */
  const Codec := "XVID"

  /** A capture handle on device `index`, and whether opening it succeeded. */
  datatype Capture = Capture(index: nat, isOpened: bool)

  /** What the capture device reports for width, height and frame rate (`cap.get`). */
  datatype DeviceProps = DeviceProps(width: real, height: real, fps: real)

  /** A video writer: its target file, codec, rate, frame size and the frames written so far. */
  datatype Writer = Writer(path: string, fourcc: string, fps: real, width: int, height: int, frames: seq<FrameImage>)

  datatype Timer = Stopped | Running(intervalMs: nat)

  /**
   * The controller's state. `saved` lists, in order, the writers that were
   * released, with their paths and frames; `alarmRequests` counts alarm
   * playbacks handed to the background thread.
   */
  datatype State = State(
    cap: Option<Capture>,
    recording: bool,
    out: Option<Writer>,
    savePath: Option<string>,
    timer: Timer,
    cameraText: ButtonLabel,
    recordText: ButtonLabel,
    recordEnabled: bool,
    status: Status,
    display: Option<FrameImage>,
    saved: seq<Writer>,
    alarmRequests: nat)

  /** Python's `int(x)` on a float: truncation toward zero. */
  function Trunc(x: real): (n: int)
    ensures 0.0 <= x ==> n as real <= x < n as real + 1.0
    ensures x < 0.0 ==> n as real - 1.0 < x <= n as real
  {
    if x >= 0.0 then x.Floor else -((-x).Floor)
  }

  /** The writer's frame rate: the device's when it is positive, 20.0 otherwise. */
  function WriterFps(deviceFps: real): (fps: real)
    ensures fps > 0.0
    ensures fps == deviceFps || fps == DefaultFps
    ensures deviceFps > 0.0 ==> fps == deviceFps
  {
    if deviceFps > 0.0 then deviceFps else DefaultFps
  }

  /** The window as constructed: camera off, nothing recording, record button disabled. */
  function Init(): (s: State)
    ensures Inv(s)
  {
    State(None, false, None, None, Stopped, StartCameraLabel, StartRecordingLabel, false,
          CameraOff, None, [], 0)
  }

  /** `start_camera`: open device 0; only a successful open starts polling and enables recording. */
  function StartCamera(s: State, isOpened: bool): State
  {
    var s1 := s.(cap := Some(Capture(0, isOpened)));
    if !isOpened then s1.(status := OpenError)
    else s1.(cameraText := StopCameraLabel, recordEnabled := true, status := CameraOn,
             timer := Running(PollIntervalMs))
  }

  /** `stop_recording`: release the writer if any and revert the button and status. */
  function StopRecording(s: State): (r: State)
    ensures r.out == None && !r.recording && r.recordText == StartRecordingLabel
    ensures r.status == (if s.cap.Some? then CameraOn else CameraOff)
    ensures r.saved == (if s.out.Some? then s.saved + [s.out.value] else s.saved)
    ensures r.(out := s.out, recording := s.recording, recordText := s.recordText, status := s.status, saved := s.saved) == s
  {
    var s1 := if s.out.Some? then s.(out := None, saved := s.saved + [s.out.value]) else s;
    s1.(recording := false, recordText := StartRecordingLabel,
        status := if s1.cap.Some? then CameraOn else CameraOff)
  }

  /** `stop_camera`: stop polling, release the camera, stop any recording, reset the controls. */
  function StopCamera(s: State): (r: State)
    ensures r.timer == Stopped && r.cap == None && !r.recording
    ensures r.out == (if s.recording then None else s.out)
    ensures r.saved == (if s.recording && s.out.Some? then s.saved + [s.out.value] else s.saved)
    ensures !r.recordEnabled && r.recordText == StartRecordingLabel && r.cameraText == StartCameraLabel
    ensures r.status == CameraOff && r.display == None
    ensures r.savePath == s.savePath && r.alarmRequests == s.alarmRequests
  {
    var s1 := s.(timer := Stopped, cap := None);
    var s2 := if s1.recording then StopRecording(s1) else s1;
    s2.(display := None, cameraText := StartCameraLabel, recordText := StartRecordingLabel,
        recordEnabled := false, status := CameraOff)
  }

  /** `toggle_camera`: start the camera when there is no handle, stop it otherwise. */
  function ToggleCamera(s: State, isOpened: bool): State
  {
    if s.cap.None? then StartCamera(s, isOpened) else StopCamera(s)
  }

  /**
   * `start_recording`. An empty directory (the dialog was cancelled) changes
   * nothing; otherwise a writer is opened on `<dir>/detection_<stamp>.avi`.
   */
  function StartRecording(s: State, saveDir: string, stamp: string, props: DeviceProps): State
    requires saveDir != "" ==> s.cap.Some?
  {
    if saveDir == "" then s
    else
      var path := Join(saveDir, FileName(stamp));
      var writer := Writer(path, Codec, WriterFps(props.fps), Trunc(props.width), Trunc(props.height), []);
      s.(savePath := Some(path), out := Some(writer), recording := true,
         recordText := StopRecordingLabel, status := RecordingTo(Basename(path)))
  }

  /**
   * A cancelled dialog leaves the state as it was. A confirmed one opens a
   * fresh writer on `<dir>/detection_<stamp>.avi` at the device's size and
   * rate (20.0 when the device reports none), sets the recording flag, and
   * names the file in the status line; nothing else changes.
   */
  lemma StartRecordingEffects(s: State, saveDir: string, stamp: string, props: DeviceProps)
    requires saveDir != "" ==> s.cap.Some?
    ensures var r := StartRecording(s, saveDir, stamp, props);
      && (saveDir == "" ==> r == s)
      && (saveDir != "" ==>
        && r.recording
        && r.savePath == Some(Join(saveDir, FileName(stamp)))
        && r.out == Some(Writer(r.savePath.value, Codec, WriterFps(props.fps), Trunc(props.width), Trunc(props.height), []))
        && r.recordText == StopRecordingLabel
        && r.status == RecordingTo(Basename(r.savePath.value))
        && (IsStamp(stamp) ==> r.status == RecordingTo(FileName(stamp)))
        && r.(out := s.out, savePath := s.savePath, recording := s.recording, recordText := s.recordText, status := s.status) == s)
  {
    if saveDir != "" {
      RecordingStatusNamesFile(saveDir, stamp);
    }
  }

  lemma RecordingStatusNamesFile(saveDir: string, stamp: string)
    ensures IsStamp(stamp) ==> Basename(Join(saveDir, FileName(stamp))) == FileName(stamp)
  {
    if IsStamp(stamp) {
      StampFileNameHasNoSlash(stamp);
      BasenameOfJoin(saveDir, FileName(stamp));
    }
  }

  /** `toggle_recording`: start recording when not recording, stop it otherwise. */
  function ToggleRecording(s: State, saveDir: string, stamp: string, props: DeviceProps): State
    requires !s.recording && saveDir != "" ==> s.cap.Some?
  {
    if !s.recording then StartRecording(s, saveDir, stamp, props) else StopRecording(s)
  }

  /**
   * `update_frame` on one tick: a failed read only reports an error; otherwise
   * the frame is annotated, an alert raises the status and an alarm request, the
   * frame is written when recording, and it becomes the displayed image.
   */
  function UpdateFrame(s: State, readOk: bool, pixels: Pixels, results: seq<DetectorResult>): State
    requires s.cap.Some?
  {
    if !readOk then s.(status := ReadError)
    else
      var frame := Annotated(pixels, results);
      var alert := Alert(results);
      s.(status := if alert then FireAlert else s.status,
         alarmRequests := if alert then s.alarmRequests + 1 else s.alarmRequests,
         out := if s.recording && s.out.Some? then Some(s.out.value.(frames := s.out.value.frames + [frame])) else s.out,
         display := Some(frame))
  }

  /**
   * The states reachable through the window's controls: a writer exists exactly
   * while recording, recording needs the record button enabled, and the record
   * button is enabled, the timer polling and the camera button reading "Stop
   * Camera" exactly while an opened camera is held.
   */
  ghost predicate Inv(s: State)
  {
    && (s.out.Some? <==> s.recording)
    && (s.recording ==> s.recordEnabled)
    && (s.recordEnabled <==> s.cap.Some? && s.cap.value.isOpened)
    && s.timer == (if s.recordEnabled then Running(PollIntervalMs) else Stopped)
    && s.cameraText == (if s.recordEnabled then StopCameraLabel else StartCameraLabel)
    && s.recordText == (if s.recording then StopRecordingLabel else StartRecordingLabel)
    && (s.recording ==> s.savePath == Some(s.out.value.path))
  }

  /** What reaches the controller: a click on a button, a timer tick, or the window closing. */
  datatype Event =
    | CameraButton(isOpened: bool)
    | RecordButton(saveDir: string, stamp: string, props: DeviceProps)
    | TimerTick(readOk: bool, pixels: Pixels, results: seq<DetectorResult>)
    | CloseWindow

  /**
   * One event. A disabled record button delivers no click and a stopped timer
   * no tick; closing the window runs `closeEvent`, which stops the camera.
   */
  function Step(s: State, e: Event): (r: State)
    requires Inv(s)
    ensures Inv(r)
  {
    match e
    case CameraButton(isOpened) => ToggleCamera(s, isOpened)
    case RecordButton(saveDir, stamp, props) =>
      if s.recordEnabled then ToggleRecording(s, saveDir, stamp, props) else s
    case TimerTick(readOk, pixels, results) =>
      if s.timer.Running? then UpdateFrame(s, readOk, pixels, results) else s
    case CloseWindow => StopCamera(s)
  }

  /** A sequence of events, in order; every state on the way keeps the invariant. */
  function Run(s: State, events: seq<Event>): (r: State)
    requires Inv(s)
    ensures Inv(r)
    decreases |events|
  {
    if events == [] then s else Run(Step(s, events[0]), events[1..])
  }
}
