# Motion detector lifecycle in Dafny

This project models the event and recording lifecycle of `MotionDetector`, the
Raspberry Pi motion detector. `MotionDetector` reads camera frames, keeps a
pre-capture ring buffer and filters contours by area. It debounces the motion
signal into events and runs the configured shell hooks. It also starts, rolls
over and stops encoder recordings. After a recording ends, post-processing
joins the pre-capture clip and the segment, then runs the movie-end hook.

The project has five modules:

- `FrameDetection` (`frame_detection.dfy`): the area filter of
  `find_contours`.
  - `Matching` is the specification.
  - `FindContours` is the loop, proved equal to it.
  - Lemmas cover completeness and order.
- `Lifecycle` (`lifecycle.dfy`): values and specification functions.
  - Values: configuration, external actions, the three file names of a
    session, the pre-capture buffer, the debounce run, hook counts.
  - Functions: the choice of the file handed to the movie-end hook, as
    written and as intended.
- `Controller` (`controller.dfy`): one frame of `detect_motion` as a function
  from the old state to the new state plus the actions taken.
  - `MotionPhase`, `Confirm`, `EndEvent`, `RecordingPhase` and `DetectStep`
    give the step.
  - `StartRecording` and `StopRecording` give the recording session updates.
  - The lemmas state what the decisions guarantee.
- `MotionDetection` (`motion_detector.dfy`): the class `MotionDetector`.
  - Its fields are the source's fields. Its methods update them in place,
    following the source's branches.
  - The methods that run one frame (`ReadFrame`, `ProcessFrame`,
    `DetectMotion`, `CheckRecording`, `HandleMotionDetection`) and the
    recording methods (`StartMovieRecording`, `StopMovieRecording`) are proved
    to produce the state and actions of the corresponding `Controller`
    function.
  - `Start` is proved to produce the fold `ProcessedFrames` of those steps
    over the frames it reads.
  - The post-processing methods (`RecordPrecaptureFrames`, `ConcatenateMovies`,
    `OnMovieEndAction`) state their results directly.
  - The ghost `trace` records every external action: hook runs, pictures,
    encoder launches and stops, scheduled post-processing, pre-capture
    encoding, tool runs.
- `Wrappers` (`wrappers.dfy`): `Option`.

Some inputs come from outside the program and become parameters of each
frame (`Controller.FrameContext`):

- clock readings;
- the formatted timestamp;
- whether an encoder launches or stops.

The state of the pre-capture completion table at each poll is a function
`tableAt` passed to `ConcatenateMovies`. It is tied to the detector's own
`isPrecaptureRecorded` field: the table only ever gains marks, so every poll
sees every clip that was already marked when post-processing started.

The model reproduces these behaviours of the code as written:

- recording starts only when `movie.enable` is off;
- after a reported concatenation success the segment file is handed to the
  movie-end hook;
- stopping a recording leaves the pre-capture name as the tuple `(None,)`
  (`NoneTuple`);
- a failed encoder launch still replaces the three names and starts the
  pre-capture job;
- `stop_event` runs the end hook whether or not an event is ongoing;
- a failed stop changes nothing.

## Model

| member | source | states |
|---|---|---|
| FrameDetection.Matching | src/rpy_motion_detector/frame_detection.py:32-38 | The kept contours are no more than the input, all come from the input, and every one has area strictly between `min_area` and `max_area`. Crossed bounds keep nothing. |
| FrameDetection.FindContours | src/rpy_motion_detector/frame_detection.py:27-38 | The appending loop returns exactly `Matching` of its input. |
| FrameDetection.MatchingComplete | src/rpy_motion_detector/frame_detection.py:33-37 | Every input contour whose area lies strictly between the bounds is in the result. |
| FrameDetection.MatchingIsSubsequence | src/rpy_motion_detector/frame_detection.py:32-38 | The result is a subsequence of the input, in the input's order. |
| Lifecycle.PathJoin | src/rpy_motion_detector/motion_detector.py:283-295 | `os.path.join` of a directory and one name. Its contract is stated by `Lifecycle.PathJoinShape`. |
| Lifecycle.PathJoinShape | src/rpy_motion_detector/motion_detector.py:283-295 | An absolute name replaces the directory. A relative name is appended directly to a directory that is empty or ends in a separator, and after one added separator otherwise. The result starts with the directory and ends with the name. |
| Lifecycle.NamesFor | src/rpy_motion_detector/motion_detector.py:280-296 | The pre-capture name is a path exactly when pre-capture is on. With pre-capture off, it is `None` and the final name is the segment name. |
| Lifecycle.SessionFileLayout | src/rpy_motion_detector/motion_detector.py:280-296 | With pre-capture on, the names are `tmp/movie_T.mp4`, `tmp/precapture_movie_T.mp4` and `movies/final_movie_T.mp4`. Otherwise the segment and the final movie are both `movies/movie_T.mp4`. |
| Lifecycle.SessionFilesDistinct | src/rpy_motion_detector/motion_detector.py:281-290 | With pre-capture on, the segment, the pre-capture clip and the final movie are three different files, whatever the two directories are. |
| Lifecycle.NamesInjective | src/rpy_motion_detector/motion_detector.py:280-296 | Different timestamps give different segment and final files. |
| Lifecycle.Pushed | src/rpy_motion_detector/motion_detector.py:129-132 | With a positive capacity the newest frame is always kept, last. A buffer within capacity stays within it. |
| Lifecycle.PushedWindow | src/rpy_motion_detector/motion_detector.py:129-132 | A push onto a buffer within capacity keeps it within capacity. The result is the last `buffer_size` frames of the old buffer plus the new frame. |
| Lifecycle.BufferedWindow | src/rpy_motion_detector/motion_detector.py:122-134 | After any run of pushes, a buffer that started within capacity holds the last min(n, capacity) frames seen, oldest first. |
| Lifecycle.TrailingMotion | src/rpy_motion_detector/motion_detector.py:156-181 | The length of the final run of motion frames: every frame in the run shows motion, and the frame before it does not. |
| Lifecycle.TrailingMotionStep | src/rpy_motion_detector/motion_detector.py:156-181 | After a motion frame the run grows by one. After an empty frame it is zero. |
| Lifecycle.MovieEndFilename | src/rpy_motion_detector/motion_detector.py:401-415 | As written: the segment when pre-capture is on and concatenation reported success, and the final name in every other case. |
| Lifecycle.TimeoutNamesUnwrittenFinal | src/rpy_motion_detector/motion_detector.py:373-380 | As written, when the pre-capture clip never completes, the hook gets the final name, which differs from the segment. |
| Lifecycle.IntendedMovieEndFilename | src/rpy_motion_detector/motion_detector.py:397-415 | Corrected choice: the result is always either the segment or the final name. |
| Lifecycle.IntendedNamesOnlyWrittenFiles | src/rpy_motion_detector/motion_detector.py:397-415 | With the corrected choice, the hook gets the final name only if the concatenation tool ran, and the segment whenever it did not. |
| Controller.StartRecording | src/rpy_motion_detector/motion_detector.py:278-366 | Keeps the session invariant. In every case, the three names become exactly `NamesFor(config, T)`. With pre-capture on, the first action starts the pre-capture job on the current buffer and the new clip path, even when the launch fails. A failed launch leaves the flag, the handle and the start time unchanged. A successful launch sets the flag, holds the new encoder and sets the start time to now. Its last action is then the movie-start hook on the final name. |
| Controller.MovieStartHookOnLaunch | src/rpy_motion_detector/motion_detector.py:344-366 | The movie-start hook runs once when the encoder launches and never when the launch fails. |
| Controller.StopRecording | src/rpy_motion_detector/motion_detector.py:425-450 | With an encoder and a successful stop, the session becomes not recording, with no handle and start time 0. The names become `None`, the tuple `(None,)` and `None`. The actions are exactly the stop of that encoder, then one post-processing job with the old session's three names. Without an encoder, nothing changes and nothing is done. When stopping fails, nothing changes and the only action is the failed stop. The session invariant is kept. |
| Controller.StartThenStopSchedulesOnce | src/rpy_motion_detector/motion_detector.py:278-450 | A session launched with timestamp T and then stopped schedules post-processing exactly once, with the names derived from T. The start itself schedules none. |
| Controller.SessionStepsRunNoEventHooks | src/rpy_motion_detector/motion_detector.py:278-366 | Starting or stopping a recording, or stopping then starting, never runs an event hook. |
| Controller.Confirm | src/rpy_motion_detector/motion_detector.py:209-215 | `handle_motion_detection` on a state whose counter is updated. Its contract is stated by `Controller.ConfirmOutcome` and `Controller.ConfirmHooks`. |
| Controller.ConfirmOutcome | src/rpy_motion_detector/motion_detector.py:209-215 | Always leaves an event ongoing and keeps the counter and the last-motion time. With a recording running or `movie.enable` on, the session is untouched. Otherwise a recording is started with the segment name derived from the frame's timestamp, and is running iff the launch succeeded. |
| Controller.EndEvent | src/rpy_motion_detector/motion_detector.py:186-189 | Ends the event and keeps the counter and the last-motion time. Its first action is the end hook. With an encoder and a successful stop, nothing is recording afterwards. |
| Controller.MotionPhase | src/rpy_motion_detector/motion_detector.py:154-189 | The counter is one more on a motion frame and zero otherwise. The last-motion time is now exactly on motion frames. An event is ongoing iff the frame confirms motion, or one was ongoing and did not time out. A frame that neither confirms nor times out changes no session field and takes no action. |
| Controller.RecordingPhase | src/rpy_motion_detector/motion_detector.py:191-207 | Keeps the counter, the last-motion time and the event flag. Without a recording it changes nothing and takes no action. |
| Controller.FrameStep | src/rpy_motion_detector/motion_detector.py:150-152 | Within the soak period, a frame changes nothing and takes no action. A frame can start an event only after the soak period, and only by confirming motion. |
| Controller.DetectStep | src/rpy_motion_detector/motion_detector.py:154-207 | After a frame, the counter is one more on a motion frame and zero otherwise, and the last-motion time is now exactly on motion frames. An event is ongoing iff this frame confirms motion, or one was ongoing and this frame did not time it out. |
| Controller.EventStartActionsHooks | src/rpy_motion_detector/motion_detector.py:217-232 | Starting an event runs the start hook once and the end hook never. |
| Controller.MotionPhaseHooks | src/rpy_motion_detector/motion_detector.py:154-189 | The first part of a frame runs the start hook once iff it confirms motion outside an event, and the end hook once iff the event times out. |
| Controller.ConfirmHooks | src/rpy_motion_detector/motion_detector.py:209-215 | `handle_motion_detection` runs the start hook once outside an event, never during one, and never runs the end hook. |
| Controller.EndEventHooks | src/rpy_motion_detector/motion_detector.py:186-189 | The timeout path runs the end hook once and the start hook never. |
| Controller.StartHookOnce | src/rpy_motion_detector/motion_detector.py:165-174 | A whole frame runs the start hook exactly once when it confirms motion with no event ongoing, and never otherwise. |
| Controller.EndHookOnExpiry | src/rpy_motion_detector/motion_detector.py:180-189 | A whole frame runs the end hook exactly once when, with no contours and an event ongoing, strictly more than `no_motion_timeout` has passed since the last motion. It never runs otherwise. |
| Controller.EventStartsOnlyAfterRun | src/rpy_motion_detector/motion_detector.py:156-181 | The counter stays equal to the length of the current run of motion frames. An event starts only after `consecutive_frames` motion frames in a row. |
| Controller.DetectStepKeepsSessionOk | src/rpy_motion_detector/motion_detector.py:154-207 | A frame keeps the session invariant: the recording flag is set exactly when an encoder handle is held, and a held handle comes with its file names. |
| Controller.NoRecordingWithoutEvent | src/rpy_motion_detector/motion_detector.py:205-207 | When stops succeed, no recording survives a frame that ends without an ongoing event. |
| Controller.RolloverStopsThenStarts | src/rpy_motion_detector/motion_detector.py:191-204 | During an event, a recording older than `max_duration` is stopped once, then a new one is started once, to a different file. |
| Controller.NoRolloverWithinDuration | src/rpy_motion_detector/motion_detector.py:191-204 | Within `max_duration`, an ongoing recorded event takes no action and keeps its session. |
| Controller.ExpiryTakesPrecedence | src/rpy_motion_detector/motion_detector.py:180-207 | A frame that times the event out runs the end hook and stops the recording. It starts no new segment, even when the segment is over its duration. A failed stop is attempted once more. |
| Controller.EventStartFromIdle | src/rpy_motion_detector/motion_detector.py:165-174 | A confirming frame while idle starts the event. It starts one recording exactly when `movie.enable` is off, and is recording afterwards iff the launch succeeded. |
| Controller.IdleFrameIsSilent | src/rpy_motion_detector/motion_detector.py:154-207 | A frame that neither confirms motion nor finds an event or a recording takes no action. |
| MotionDetection.WriteRepeated | src/rpy_motion_detector/motion_detector.py:270-273 | Each buffered frame is written four times in a row, in buffer order. |
| MotionDetection.MotionDetector.constructor | src/rpy_motion_detector/motion_detector.py:56-70 | Counter zero, no event, no recording, no names, empty buffer and empty completion table. |
| MotionDetection.SoakedFramesOnly | src/rpy_motion_detector/motion_detector.py:124-152 | A run of frames all read within the soak period after start leaves the control state unchanged and takes no action. |
| MotionDetection.MotionDetector.Start | src/rpy_motion_detector/motion_detector.py:103-134 | Sets the start time. A camera that fails to open changes nothing else. Otherwise the capacity is `precapture_seconds * fps`, and the buffer is the old buffer with every frame pushed in order. The control state and the actions are those of `ProcessedFrames`: each frame is pushed, then goes through `FrameStep` with the buffer that includes it. |
| MotionDetection.MotionDetector.ReadFrame | src/rpy_motion_detector/motion_detector.py:129-134 | One pass of the loop. The buffer is the old buffer with the frame pushed. The state and the actions are `FrameStep`'s, on the buffer after the push. |
| MotionDetection.MotionDetector.PushFrame | src/rpy_motion_detector/motion_detector.py:129-132 | Appends the frame and drops the oldest one when over capacity. |
| MotionDetection.MotionDetector.ProcessFrame | src/rpy_motion_detector/motion_detector.py:136-152 | Filters contours by area. The state moves by `DetectStep` once more than 10 seconds have passed since start, and is unchanged before that. |
| MotionDetection.MotionDetector.DetectMotion | src/rpy_motion_detector/motion_detector.py:154-207 | The new state and the appended actions are those of `Controller.DetectStep`. The session invariant is kept. |
| MotionDetection.MotionDetector.CheckRecording | src/rpy_motion_detector/motion_detector.py:191-207 | Follows `Controller.RecordingPhase`: rollover during an event, or stopping a recording without an event. |
| MotionDetection.MotionDetector.HandleMotionDetection | src/rpy_motion_detector/motion_detector.py:209-215 | Follows `Controller.Confirm`. |
| MotionDetection.MotionDetector.StartEvent | src/rpy_motion_detector/motion_detector.py:217-232 | Sets the event flag, runs the start hook, then takes a picture if pictures are on. |
| MotionDetection.MotionDetector.StopEvent | src/rpy_motion_detector/motion_detector.py:234-247 | Clears the event flag and runs the end hook unconditionally. |
| MotionDetection.MotionDetector.TakePicture | src/rpy_motion_detector/motion_detector.py:452-470 | Saves `picture_T.jpg` in the picture directory and runs the picture hook on that path. |
| MotionDetection.MotionDetector.StartMovieRecording | src/rpy_motion_detector/motion_detector.py:278-366 | Follows `Controller.StartRecording`. |
| MotionDetection.MotionDetector.StopMovieRecording | src/rpy_motion_detector/motion_detector.py:425-450 | Follows `Controller.StopRecording`. |
| MotionDetection.MotionDetector.RecordPrecaptureFrames | src/rpy_motion_detector/motion_detector.py:249-276 | Writes each frame four times, then marks the clip complete in the table, changing no other entry. |
| MotionDetection.MotionDetector.ConcatenateMovies | src/rpy_motion_detector/motion_detector.py:368-395 | Polls at most 30 times and stops at the first poll that sees the clip marked. The tool runs iff some poll within 30 sees it. A clip already marked in the detector's table when post-processing starts is found at the first poll. Otherwise it returns failure and "Pre-capture movie not found." without running the tool. The list has two lines, pre-capture clip first, and the tool's status and error output are returned. |
| MotionDetection.MotionDetector.OnMovieEndAction | src/rpy_motion_detector/motion_detector.py:397-423 | Runs the movie-end hook exactly once, last, on the file `IntendedMovieEndFilename` picks. It is preceded by the tool run exactly when pre-capture is on and the clip completed in time. With pre-capture on and the clip already marked in the detector's table, the tool always runs. |

## Left out

- Image processing is left out: background subtraction, blur, threshold and dilation, contour extraction and drawing, picture annotation and `cv2.imwrite`. Contours are an abstract type, and `cv2.contourArea` is a function parameter.
- Two call problems are outside the model:
  - `process_frame` passes `frame_processing` its arguments in a different order from that function's signature;
  - `draw_contour` is called with a `put_area` argument it does not take.
- The GStreamer and ffmpeg processes, their command lines and process groups are abstracted. A launch, a stop and a tool run are trace actions with a given success flag and error text. The outcome of a hook command is not modelled.
- Each frame carries one reading of the tick clock, one wall-clock reading, one timestamp, one launch outcome and one stop outcome. The source reads the clock and formats the timestamp again at each use.
- Times are integer seconds and the frame rate is a natural number. The source divides ticks by the tick frequency in floating point, and `buffer_size` may be a float.
- The pre-capture and post-processing threads are left out.
  - They are separate method calls. `tableAt` stands for what each poll of the shared completion table sees.
  - Interleavings, the one-second sleeps between polls and the aliasing of `frame_buffer` by the pre-capture thread are not modelled.
- `str.format` of the hook templates is not modelled. A hook run records the hook and the file name it is given.
- These are not part of this model:
  - the directory creation in `__init__`;
  - `__del__` (stopping the recording and removing the temporary directory);
  - configuration loading (`config.py`);
  - the command-line entry points.
- Motion history: the class does not keep a ghost history of motion signals. `Controller.EventStartsOnlyAfterRun` states the debounce property on the step function that `DetectMotion` is proved to follow.
- MotionDetection.MotionDetector.OnMovieEndAction: follows the corrected choice of the file for the hook (see Findings). The as-written choice is `Lifecycle.MovieEndFilename`.

## Findings

| source | as written | input that shows it | evidently intended | confidence | as-written member | corrected member |
|---|---|---|---|---|---|---|
| src/rpy_motion_detector/motion_detector.py:373-415 | When the pre-capture clip is never marked complete within 30 polls, `concatenate_movies` returns failure without running ffmpeg. `on_movie_end_action` then hands the movie-end hook `final_movie_name`, a file that nothing wrote. | `record_precapture` on and a completion table that never marks the pre-capture clip (for example, the pre-capture job raises before it marks the clip, or it is still encoding after the 30 polls) | Hand the hook the segment `movie_filename`, the only recording on disk | not executed | Lifecycle.TimeoutNamesUnwrittenFinal | Lifecycle.IntendedNamesOnlyWrittenFiles |
