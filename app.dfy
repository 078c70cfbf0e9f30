/**
 * The detection window itself: the fields `FireDetectionApp` updates in place
 * and its command and timer handlers. Each handler is proved to change the
 * fields exactly as the matching transition of `Controller` describes.
 */
module FireDetection {
  import opened Wrappers
  import opened Paths
  import opened Detection
  import opened Controller

  class FireDetectionApp {
    /** `self.cap`: the capture handle, absent until the first open attempt. */
    var cap: Option<Capture>
    var recording: bool
    /** `self.out`: the video writer while recording. */
    var out: Option<Writer>
    var savePath: Option<string>
    /** The frame timer driving `update_frame`. */
    var timer: Timer
    /** Text of the camera button, text and enabled state of the record button. */
    var cameraText: ButtonLabel
    var recordText: ButtonLabel
    var recordEnabled: bool
    /** Text of the status label. */
    var status: Status
    /** The frame shown in the video label, absent when cleared. */
    var display: Option<FrameImage>
    /** Recordings whose writer has been released. */
    var saved: seq<Writer>
    /** Alarm playbacks handed to background threads. */
    var alarmRequests: nat

    function Snapshot(): State
      reads this
    {
      State(cap, recording, out, savePath, timer, cameraText, recordText, recordEnabled,
            status, display, saved, alarmRequests)
    }

    /** `__init__` with the widgets of `init_ui`: camera off, record button disabled. */
    constructor ()
      ensures Snapshot() == Init()
    {
      cap := None;
      recording := false;
      out := None;
      savePath := None;
      timer := Stopped;
      cameraText := StartCameraLabel;
      recordText := StartRecordingLabel;
      recordEnabled := false;
      status := CameraOff;
      display := None;
      saved := [];
      alarmRequests := 0;
    }

    method ToggleCamera(isOpened: bool)
      modifies this
      ensures Snapshot() == if old(cap).None? then Controller.StartCamera(old(Snapshot()), isOpened)
                            else Controller.StopCamera(old(Snapshot()))
    {
      if cap.None? {
        StartCamera(isOpened);
      } else {
        StopCamera();
      }
    }

    /** `isOpened` is what `VideoCapture(0).isOpened()` reports. */
    method StartCamera(isOpened: bool)
      modifies this
      ensures Snapshot() == Controller.StartCamera(old(Snapshot()), isOpened)
    {
      cap := Some(Capture(0, isOpened));
      if !isOpened {
        status := OpenError;
        return;
      }
      cameraText := StopCameraLabel;
      recordEnabled := true;
      status := CameraOn;
      timer := Running(PollIntervalMs);
    }

    method StopCamera()
      modifies this
      ensures Snapshot() == Controller.StopCamera(old(Snapshot()))
    {
      ghost var s1 := old(Snapshot()).(timer := Stopped, cap := None);
      timer := Stopped;
      if cap.Some? {
        cap := None;
      }
      assert Snapshot() == s1;
      if recording {
        StopRecording();
      }
      assert Snapshot() == if s1.recording then Controller.StopRecording(s1) else s1;
      display := None;
      cameraText := StartCameraLabel;
      recordText := StartRecordingLabel;
      recordEnabled := false;
      status := CameraOff;
    }

    method ToggleRecording(saveDir: string, stamp: string, props: DeviceProps)
      requires !recording && saveDir != "" ==> cap.Some?
      modifies this
      ensures Snapshot() == if !old(recording) then Controller.StartRecording(old(Snapshot()), saveDir, stamp, props)
                            else Controller.StopRecording(old(Snapshot()))
    {
      if !recording {
        StartRecording(saveDir, stamp, props);
      } else {
        StopRecording();
      }
    }

    /**
     * `saveDir` is the dialog's answer ("" when cancelled), `stamp` the clock's
     * `%Y%m%d_%H%M%S` text and `props` what the camera reports. The source reads
     * the properties from `self.cap`, so a confirmed dialog needs a handle.
     */
    method StartRecording(saveDir: string, stamp: string, props: DeviceProps)
      requires saveDir != "" ==> cap.Some?
      modifies this
      ensures Snapshot() == Controller.StartRecording(old(Snapshot()), saveDir, stamp, props)
    {
      if saveDir == "" {
        return;
      }
      var path := Join(saveDir, FileName(stamp));
      savePath := Some(path);
      var width := Trunc(props.width);
      var height := Trunc(props.height);
      out := Some(Writer(path, Codec, if props.fps > 0.0 then props.fps else DefaultFps, width, height, []));
      recording := true;
      recordText := StopRecordingLabel;
      status := RecordingTo(Basename(path));
    }

    method StopRecording()
      modifies this
      ensures Snapshot() == Controller.StopRecording(old(Snapshot()))
    {
      if out.Some? {
        saved := saved + [out.value];
        out := None;
      }
      recording := false;
      recordText := StartRecordingLabel;
      if cap.Some? {
        status := CameraOn;
      } else {
        status := CameraOff;
      }
    }

    /**
     * One timer tick: `readOk` and `pixels` are what `cap.read()` returns and
     * `results` what the detector returns for that frame.
     */
    method UpdateFrame(readOk: bool, pixels: Pixels, results: seq<DetectorResult>)
      requires cap.Some?
      modifies this
      ensures Snapshot() == Controller.UpdateFrame(old(Snapshot()), readOk, pixels, results)
    {
      if !readOk {
        status := ReadError;
        return;
      }
      var image, fireDetected := AnnotateFrame(pixels, results);
      if fireDetected {
        status := FireAlert;
        alarmRequests := alarmRequests + 1;
      }
      if recording && out.Some? {
        out := Some(out.value.(frames := out.value.frames + [image]));
      }
      display := Some(image);
    }

    /** `closeEvent`: stop the camera, then let the window close. */
    method CloseEvent() returns (accepted: bool)
      modifies this
      ensures accepted
      ensures Snapshot() == Controller.StopCamera(old(Snapshot()))
    {
      StopCamera();
      accepted := true;
    }
  }
}
