# Fire/smoke detection window: session controller and per-frame pass

This project models the logic in `FireDetectionApp`, the main window of a small
fire/smoke monitoring tool. The window shows a camera feed and runs an object
detector on each frame. It flags boxes labelled `fire` or `smoke`, asks for an
alarm sound, and can record the annotated feed to an `.avi` file.

Two parts are modelled:

- **The session controller.** This is the object's state: the camera handle
  `cap`, the `recording` flag, the writer `out`, the save path, the polling
  timer, the captions of the two buttons, whether the record button is enabled,
  and the status label. The model covers its command handlers `toggle_camera`,
  `start_camera`, `stop_camera`, `toggle_recording`, `start_recording`,
  `stop_recording` and `closeEvent`.
- **The per-frame tick `update_frame`.** It reads a frame and walks the
  detector's results and their boxes in two nested loops. Each box gets a
  rectangle and a label in its class colour, and the loops accumulate the alert
  flag. An alerting frame gets the full-frame warning, updates the status and
  asks for an alarm. The frame is written to the recording while one is open,
  and it is shown in the window.

Files:

- `wrappers.dfy`: the `Option` type, used for handles that may be absent.
- `paths.dfy`: POSIX `os.path.join` and `os.path.basename`, and the
  `detection_<timestamp>.avi` file name.
- `detection.dfy`: boxes, colours and drawing operations. It also holds the
  `Frame` buffer, which the nested loops (`DrawBoxes`, `Annotate`) draw on in
  place, and the specification of the annotated frame (`Annotated`, `Alert`)
  with its lemmas.
- `controller.dfy`: the controller state as a value (`State`) and each handler
  as a function from old state to new state. It also defines the invariant
  `Inv` of the states the controls can reach, and `Step`/`Run`, which deliver
  button clicks, timer ticks and the window closing.
- `controller_props.dfy`: lemmas about the handlers, the phases of the window,
  and a complete recording session.
- `app.dfy`: the class `FireDetectionApp`. Its fields are the window's fields,
  and each method updates them in place. Each method is proved to leave
  `Snapshot()` equal to the matching `Controller` function applied to the old
  snapshot.

External collaborators are inputs:

- whether `VideoCapture(0)` opened (`isOpened`);
- the directory the dialog returned (`""` when cancelled);
- the `%Y%m%d_%H%M%S` timestamp;
- what the device reports for width, height and fps;
- the outcome of `cap.read()`, standing for the pixels read;
- the detector's boxes, each with a class name, a confidence and an integer
  rectangle.

Two more fields record effects outside the window. `saved` lists, in order, the
writers that were released, each with its path and the frames written to it.
These are the recordings handed to the file system. `alarmRequests` counts the
alarm playbacks handed to background threads.

Two facts about the code shape the model:

- **A failed open keeps the handle.** `start_camera` assigns `cap` before it
  calls `isOpened()` (fire_detection_gui.py:107-110). On failure it returns
  with `cap` still set, the timer stopped and the record button disabled. The
  next click on the camera button therefore runs `stop_camera`, and only the
  click after that tries to open the device again (`FailedOpenKeepsHandle`).
- **A live camera need not have a writer.** The code keeps two facts:
  - a writer exists exactly while recording;
  - recording needs the record button enabled, which happens exactly while an
    opened camera is held.

  A camera that is on but not recording has no writer (`Inv`).

The code does not check whether the writer opened, and neither does the model.

The non-alarm colour tuple `(255, 255, 0)` is in OpenCV's blue-green-red order,
so it is cyan on screen, although the source's comment calls it yellow. The
model keeps the tuple (`OtherColor`).

## Model

| member | source | states |
|---|---|---|
| Paths.Join | fire_detection_gui.py:151 | computes POSIX `os.path.join` of two components; its shape is stated by `Paths.JoinShape` |
| Paths.JoinShape | fire_detection_gui.py:151 | an absolute name replaces the directory; otherwise the path is exactly `dir + name` when `dir` is empty or ends in '/', and exactly `dir + "/" + name` otherwise |
| Paths.Basename | fire_detection_gui.py:169 | computes `os.path.basename`; characterised by `Paths.BasenameIsLastComponent` and inverted against `Join` by `Paths.BasenameOfJoin` |
| Paths.BasenameIsLastComponent | fire_detection_gui.py:169 | the basename is the part after the last '/': it holds no '/', it is a suffix of the path, and a '/' comes just before it unless it is the whole path |
| Paths.BasenameOfPlainName | fire_detection_gui.py:169 | a name without '/' is its own basename |
| Paths.BasenameOfJoin | fire_detection_gui.py:151-169 | for every directory, the basename of `join(dir, name)` is `name` when `name` holds no '/' |
| Paths.FileName | fire_detection_gui.py:150-151 | builds `detection_<stamp>.avi`; `Paths.StampFileNameHasNoSlash` states it is a plain file name for a `strftime` stamp |
| Paths.IsStamp | fire_detection_gui.py:150 | the shape of a `strftime("%Y%m%d_%H%M%S")` stamp: eight digits, '_', six digits; `Paths.StampFileNameHasNoSlash` states what it guarantees about the file name |
| Paths.StampFileNameHasNoSlash | fire_detection_gui.py:150-151 | a `%Y%m%d_%H%M%S` timestamp gives a file name `detection_<stamp>.avi` with no '/' |
| Detection.IsAlarmClass | fire_detection_gui.py:204 | the alarm test `class_name in ['fire', 'smoke']`; `Detection.BoxColor` and `Detection.AlertIff` state what it decides |
| Detection.BoxColor | fire_detection_gui.py:204-208 | the colour is the alarm red (0,0,255) exactly for `fire`/`smoke`, and (255,255,0) for every other class |
| Detection.BoxDrawings | fire_detection_gui.py:210-221 | the two drawings one box receives; `Detection.DrawingsOfAt` states their corners, origin, scale, colour and thickness for each box |
| Detection.DrawingsOf | fire_detection_gui.py:210-221 | what the inner loop draws for a sequence of boxes, in order; `Detection.DrawingsOfLength`, `Detection.DrawingsOfAt` and `Detection.DrawingsOfAppend` characterise it |
| Detection.AllBoxes | fire_detection_gui.py:197-198 | the boxes in the order the nested loops visit them; `Detection.AllBoxesMembers` and `Detection.AllBoxesLength` characterise it |
| Detection.AnyAlarm | fire_detection_gui.py:204-205 | whether some box of a sequence is `fire` or `smoke`; `Detection.AnyAlarmAppend` states how it splits over concatenation |
| Detection.Alert | fire_detection_gui.py:196-205 | the final value of `fire_detected`, used at line 224; `Detection.AlertIff` states it against an independent formula |
| Detection.DrawingsOfAppend | fire_detection_gui.py:197-221 | the drawings of two box sequences in a row are the first's drawings followed by the second's |
| Detection.AnyAlarmAppend | fire_detection_gui.py:204-205 | two box sequences in a row hold an alarm box iff one of them does |
| Detection.Annotated | fire_detection_gui.py:196-235 | the specification of the annotated frame; `Detection.AnnotatedShape` states its shape, and `Detection.Annotate` and `Detection.AnnotateFrame` are proved to produce it |
| Detection.Frame.Rectangle | fire_detection_gui.py:211 | drawing a rectangle appends exactly that rectangle to the frame's drawings |
| Detection.Frame.PutText | fire_detection_gui.py:213-221 | drawing a text appends exactly that text to the frame's drawings |
| Detection.DrawBoxes | fire_detection_gui.py:198-221 | the inner loop appends each box's rectangle and label in order, and raises the flag iff some box is alarm-class |
| Detection.Annotate | fire_detection_gui.py:196-221 | the nested loops append the drawings of all boxes of all results in order, and the flag they leave is the frame's alert flag |
| Detection.AnnotateFrame | fire_detection_gui.py:196-235 | the annotated frame is the boxes' drawings followed by the warning banner iff alerting, and the returned flag is the alert flag |
| Detection.BoxStep | fire_detection_gui.py:198-221 | one more box adds its two drawings and ORs its class into the flag |
| Detection.ResultStep | fire_detection_gui.py:197-221 | one more result adds the drawings of its boxes and ORs their classes into the flag |
| Detection.DrawingsOfLength | fire_detection_gui.py:210-221 | N boxes give exactly 2N drawings |
| Detection.DrawingsOfAt | fire_detection_gui.py:210-221 | box k gives drawing 2k, its rectangle, and drawing 2k+1, its label 10 pixels above the top-left corner, both in its class colour |
| Detection.AllBoxesMembers | fire_detection_gui.py:197-198 | the nested loops visit exactly the boxes of the results |
| Detection.AllBoxesLength | fire_detection_gui.py:197-198 | the loops visit as many boxes as the results hold in all, counted independently from the first result on |
| Detection.AlertIff | fire_detection_gui.py:196-205 | the alert flag is true iff some box of some result is labelled `fire` or `smoke` |
| Detection.AnnotatedShape | fire_detection_gui.py:196-235 | an annotated frame keeps its pixels, holds 2N box drawings followed by one banner iff alerting, and holds the banner iff alerting |
| Detection.BannerNotBoxDrawing | fire_detection_gui.py:210-235 | the warning banner is never one of the box drawings |
| Controller.StatusTextInjective | fire_detection_gui.py:109-189 | different status messages show different texts |
| Controller.Trunc | fire_detection_gui.py:154-155 | `int()` of the reported width/height truncates toward zero |
| Controller.WriterFps | fire_detection_gui.py:156-163 | the writer's rate is positive, and it is the device's rate when that is positive |
| Controller.Init | fire_detection_gui.py:26-83 | the constructed window (no handle, not recording, timer stopped, record button disabled, "Status: Camera Off") satisfies the invariant |
| Controller.StartCamera | fire_detection_gui.py:106-115 | the state after `start_camera`; `ControllerProperties.SuccessfulOpen` and `ControllerProperties.FailedOpenKeepsHandle` state both outcomes |
| Controller.ToggleCamera | fire_detection_gui.py:100-104 | dispatches on the camera handle; through `Controller.Step` it keeps `Controller.Inv`, and `ControllerProperties.FailedOpenKeepsHandle` shows both branches |
| Controller.StartRecording | fire_detection_gui.py:138-169 | the state after `start_recording`, for a held camera handle when the dialog is confirmed; `Controller.StartRecordingEffects` states every field |
| Controller.ToggleRecording | fire_detection_gui.py:132-136 | dispatches on the recording flag; `ControllerProperties.OpenThenRecord` and `ControllerProperties.StopRecordThenCamera` use both branches |
| Controller.UpdateFrame | fire_detection_gui.py:186-246 | the state after one tick, for a held camera handle; `ControllerProperties.TickEffects` and `ControllerProperties.FailedReadOnlyReports` state its effects |
| Controller.Inv | fire_detection_gui.py:80-180 | the invariant of reachable states: writer iff recording; recording implies record button enabled; enabled iff an opened camera is held; the timer polls every 20 ms and the captions read "Stop Camera"/"Stop Recording" exactly then; the save path is the writer's path. `Controller.Step` and `Controller.Run` preserve it |
| Controller.StopRecording | fire_detection_gui.py:171-180 | after stopping, there is no writer and no recording, the button reads "Start Recording", any writer is released into the saved files, and the status is "Camera On" iff a camera handle is held; nothing else changes |
| Controller.StopCamera | fire_detection_gui.py:117-130 | from any state: timer stopped, no handle, not recording, any recording finished and saved, record button disabled and reading "Start Recording", camera button "Start Camera", status "Camera Off", display cleared |
| Controller.StartRecordingEffects | fire_detection_gui.py:138-169 | a cancelled dialog changes nothing; a confirmed one records to `<dir>/detection_<stamp>.avi` with codec XVID, the device rate or 20.0, and the truncated size; the status always names the path's basename, which is `detection_<stamp>.avi` for a `strftime` stamp; nothing else changes |
| Controller.RecordingStatusNamesFile | fire_detection_gui.py:151-169 | the status names the file's basename, `detection_<stamp>.avi` |
| Controller.Step | fire_detection_gui.py:100-136 | every click, tick or close from a reachable state leaves a state satisfying the invariant (writer iff recording, recording ⇒ record enabled ⇔ opened camera ⇔ timer polling every 20 ms) |
| Controller.Run | fire_detection_gui.py:80-180 | the invariant holds after any sequence of clicks, ticks and closes |
| ControllerProperties.FailedOpenKeepsHandle | fire_detection_gui.py:100-110 | a failed open reports "Error opening camera" and leaves the timer stopped and the record button disabled, but `cap` assigned; the next click goes to `stop_camera`, and only the click after that reopens |
| ControllerProperties.SuccessfulOpen | fire_detection_gui.py:106-115 | a successful open starts the 20 ms timer, enables the record button, sets "Stop Camera" and "Status: Camera On" |
| ControllerProperties.StopCameraReleasesEverything | fire_detection_gui.py:117-130 | from any reachable state, stopping the camera releases both handles, saves a recording in progress, and returns to the idle phase |
| ControllerProperties.CancelledDialogIsNoOp | fire_detection_gui.py:132-148 | a record click whose dialog is cancelled changes no field |
| ControllerProperties.WriterRateFallback | fire_detection_gui.py:156-165 | the writer uses the device fps when it is positive and 20.0 otherwise |
| ControllerProperties.TickEffects | fire_detection_gui.py:186-246 | a tick that reads a frame sets "ALERT: Fire/Smoke Detected!" iff alerting (status otherwise untouched), requests one alarm iff alerting, writes exactly one frame iff recording, and shows the annotated frame; nothing else changes |
| ControllerProperties.FailedReadOnlyReports | fire_detection_gui.py:187-190 | a failed read sets "Status: Error reading frame" and changes nothing else |
| ControllerProperties.StepFollowsPhases | fire_detection_gui.py:100-180 | every event moves the window along Idle/OpenFailed/Live/Recording transitions the controls allow; there is no jump from Idle to Recording |
| ControllerProperties.QuietTickWhileRecording | fire_detection_gui.py:186-246 | while recording, a tick without alarm boxes only appends its frame and shows it |
| ControllerProperties.QuietTicksAppendFrames | fire_detection_gui.py:238-239 | while recording, n ticks without alarm boxes append exactly their n annotated frames, in order, and change nothing else but the display |
| ControllerProperties.OpenThenRecord | fire_detection_gui.py:106-169 | from the start, a successful open and a confirmed record click leave an empty writer on the timestamped file |
| ControllerProperties.StopRecordThenCamera | fire_detection_gui.py:117-180 | stopping recording and then the camera saves exactly the open writer and ends with "Camera Off", no handles and the timer stopped |
| ControllerProperties.RecordingSession | fire_detection_gui.py:100-239 | open, record to D, n quiet ticks, stop recording, stop camera: exactly one file, `D/detection_<stamp>.avi`, holding the n annotated frames without banner, and the window ends "Camera Off" with no alarms requested |
| FireDetection.FireDetectionApp.constructor | fire_detection_gui.py:26-83 | the new window's fields are the initial controller state |
| FireDetection.FireDetectionApp.ToggleCamera | fire_detection_gui.py:100-104 | dispatches to `start_camera` exactly when `cap` is absent, else to `stop_camera` |
| FireDetection.FireDetectionApp.StartCamera | fire_detection_gui.py:106-115 | updates the fields as `Controller.StartCamera` |
| FireDetection.FireDetectionApp.StopCamera | fire_detection_gui.py:117-130 | updates the fields as `Controller.StopCamera` (including the cascade into `stop_recording`) |
| FireDetection.FireDetectionApp.ToggleRecording | fire_detection_gui.py:132-136 | dispatches to `start_recording` exactly when not recording, else to `stop_recording` |
| FireDetection.FireDetectionApp.StartRecording | fire_detection_gui.py:138-169 | updates the fields as `Controller.StartRecording` |
| FireDetection.FireDetectionApp.StopRecording | fire_detection_gui.py:171-180 | updates the fields as `Controller.StopRecording` |
| FireDetection.FireDetectionApp.UpdateFrame | fire_detection_gui.py:186-246 | updates the fields as `Controller.UpdateFrame` |
| FireDetection.FireDetectionApp.CloseEvent | fire_detection_gui.py:248-250 | stops the camera as `stop_camera` does and accepts the close |

## Left out

- Widget construction, styling and layout (`init_ui` apart from the initial captions, enabled state and status, fire_detection_gui.py:38-98), `set_dark_theme` and the `__main__` block. They are presentation set-up with no behaviour.
- The detector (`YOLO("best.pt")` and its call with conf 0.25, iou 0.25 on the CPU). It is foreign code, so its boxes are an input. The class-index-to-name lookup `r.names[cls]` is folded into the input box's class name.
- Pixels. OpenCV drawing is recorded as a list of drawing operations (corners or origin, text, scale, colour, thickness). The BGR→RGB conversion and the QImage/QPixmap rendering are not modelled: the displayed frame is the annotated frame.
- Label formatting `f"{class_name} {conf:.2f}"`. It is float formatting, so a label keeps the class name and the confidence, unformatted.
- Audio and the daemon alarm thread. This is concurrency and foreign audio: each alerting tick only adds one to `alarmRequests`.
- The wall clock and the directory dialog. They are inputs: the timestamp text and the returned directory, where `""` means cancelled.
- Codec internals. Whether `VideoWriter` actually opened is not checked by the source and is not modelled: the writer always accepts frames.
- Floating point. Fps and sizes are exact reals: a NaN rate, which `fps > 0` would also send to the 20.0 fallback, is not represented.
- The unused `self.frames` list.
- FireDetection.FireDetectionApp.StartRecording: when called directly while a recording is open (the controls never do this), the old writer is dropped without being listed in `saved`. Python would finalise it only when it is garbage-collected.
- FireDetection.FireDetectionApp.UpdateFrame, FireDetection.FireDetectionApp.StartRecording, FireDetection.FireDetectionApp.ToggleRecording, Controller.UpdateFrame, Controller.StartRecording, Controller.ToggleRecording, Controller.StartRecordingEffects and ControllerProperties.WriterRateFallback require a camera handle where the source calls `self.cap.read()` or `self.cap.get()`. Those calls would raise on `None`. The partial state of that failed call is not modelled: `save_path` is already set at line 151 when line 154 raises. Through the controls this never happens, because the timer and the record button are only active with an opened camera.
- The file system. `saved` records each released writer with its path. Two recordings started in the same directory within the same second get the same path. Both stay in the list, but on disk the later `VideoWriter` replaces the earlier file.
- Path separators. `Paths.Join` and `Paths.Basename` are the POSIX `posixpath` versions with '/' as the separator. On Windows `os.path.join` inserts `\`, so the path facts of `Controller.StartRecordingEffects` and `ControllerProperties.RecordingSession` hold for POSIX systems only.
