/**
  `MotionDetector`: the object that reads frames, keeps the pre-capture
  buffer and runs the event/recording state machine. Its methods update its
  fields in place, as the original's do, and are proved to follow the
  functions of the `Controller` module.

  External effects (hooks, encoder processes, pictures, the concatenation
  tool) are appended to the ghost `trace`; clock readings, timestamps and the
  outcome of launching or stopping an encoder arrive as parameters.
 */
module MotionDetection {
  import opened Wrappers
  import opened Lifecycle
  import opened Controller
  import FrameDetection

  /** One frame read from the camera, with the contours the image library found in it. */
  datatype FrameInput = FrameInput(frame: Frame, contours: seq<FrameDetection.Contour>, ctx: FrameContext)

  /** The frames of `inputs`, in order. */
  function FramesOf(inputs: seq<FrameInput>): seq<Frame> {
    if inputs == [] then [] else FramesOf(inputs[..|inputs| - 1]) + [inputs[|inputs| - 1].frame]
  }

  lemma BufferedInput(start: seq<Frame>, inputs: seq<FrameInput>, i: nat, capacity: nat)
    requires i < |inputs|
    ensures Buffered(start, FramesOf(inputs[..i + 1]), capacity)
         == Pushed(Buffered(start, FramesOf(inputs[..i]), capacity), inputs[i].frame, capacity)
  {
    assert inputs[..i + 1][..i] == inputs[..i];
  }

  /** Whether a frame shows motion: some contour passes the area filter. */
  predicate Motion(config: Config, input: FrameInput, area: FrameDetection.Contour -> real) {
    |FrameDetection.Matching(input.contours, area, config.minArea, config.maxArea)| > 0
  }

  /**
    The control state and actions after the frame loop of `start` has handled
    `inputs`: each frame is pushed onto the buffer and then processed, and only
    frames read more than the soak period after `startWall` reach detection.
   */
  function ProcessedFrames(c: Control, config: Config, start: seq<Frame>, capacity: nat, startWall: int,
                           inputs: seq<FrameInput>, area: FrameDetection.Contour -> real): Step<Control>
  {
    if inputs == [] then Step(c, [])
    else
      var prev := ProcessedFrames(c, config, start, capacity, startWall, inputs[..|inputs| - 1], area);
      var last := inputs[|inputs| - 1];
      var step := FrameStep(prev.next, config, Buffered(start, FramesOf(inputs), capacity), Motion(config, last, area),
                            last.ctx.wall - startWall > SoakSeconds, last.ctx);
      Step(step.next, prev.actions + step.actions)
  }

  /** One more frame of the loop of `start`. */
  lemma ProcessedInput(c: Control, config: Config, start: seq<Frame>, capacity: nat, startWall: int,
                       inputs: seq<FrameInput>, i: nat, area: FrameDetection.Contour -> real)
    requires i < |inputs|
    ensures var prev := ProcessedFrames(c, config, start, capacity, startWall, inputs[..i], area);
      var step := FrameStep(prev.next, config, Buffered(start, FramesOf(inputs[..i + 1]), capacity), Motion(config, inputs[i], area),
                            inputs[i].ctx.wall - startWall > SoakSeconds, inputs[i].ctx);
      ProcessedFrames(c, config, start, capacity, startWall, inputs[..i + 1], area)
        == Step(step.next, prev.actions + step.actions)
  {
    assert inputs[..i + 1][..i] == inputs[..i];
  }

  /**
    No frame of the loop of `start` read within the soak period after
    `startWall` changes the control state or acts.
   */
  lemma {:induction false} SoakedFramesOnly(c: Control, config: Config, start: seq<Frame>, capacity: nat, startWall: int,
                                            inputs: seq<FrameInput>, area: FrameDetection.Contour -> real)
    requires forall i :: 0 <= i < |inputs| ==> inputs[i].ctx.wall - startWall <= SoakSeconds
    ensures ProcessedFrames(c, config, start, capacity, startWall, inputs, area) == Step(c, [])
  {
    if inputs != [] {
      SoakedFramesOnly(c, config, start, capacity, startWall, inputs[..|inputs| - 1], area);
    }
  }

  /** The inner loops of `record_precapture_frames`: every buffered frame goes to the writer four times. */
  method WriteRepeated(frames: seq<Frame>) returns (written: seq<Frame>)
    ensures RepeatsEach(written, frames, PrecaptureRepeat)
  {
    written := [];
    for j := 0 to |frames|
      invariant |written| == PrecaptureRepeat * j
      invariant forall i :: 0 <= i < |written| ==> written[i] == frames[i / PrecaptureRepeat]
    {
      for r := 0 to PrecaptureRepeat
        invariant |written| == PrecaptureRepeat * j + r
        invariant forall i :: 0 <= i < |written| ==> written[i] == frames[i / PrecaptureRepeat]
      {
        assert (PrecaptureRepeat * j + r) / PrecaptureRepeat == j;
        written := written + [frames[j]];
      }
    }
  }

  class MotionDetector {
    const config: Config

    var detectedMotionConsecutiveFrames: nat
    var lastMotionTime: int
    var isEventOngoing: bool
    var isMovieRecording: bool
    var gstProcess: Option<Process>
    var movieStartTime: int
    var movieFilename: Option<string>
    var precaptureMovieFilename: PrecaptureName
    var finalMovieFilename: Option<string>
    var frameBuffer: seq<Frame>
    var isPrecaptureRecorded: map<string, bool>
    var startTime: int
    var bufferSize: nat

    /** The external actions performed so far, oldest first. */
    ghost var trace: seq<Action>

    ghost function SessionState(): Session
      reads this`isMovieRecording, this`gstProcess, this`movieStartTime,
            this`movieFilename, this`precaptureMovieFilename, this`finalMovieFilename
    {
      Session(isMovieRecording, gstProcess, movieStartTime, movieFilename, precaptureMovieFilename, finalMovieFilename)
    }

    ghost function ControlState(): Control
      reads this`detectedMotionConsecutiveFrames, this`lastMotionTime, this`isEventOngoing,
            this`isMovieRecording, this`gstProcess, this`movieStartTime,
            this`movieFilename, this`precaptureMovieFilename, this`finalMovieFilename
    {
      Control(detectedMotionConsecutiveFrames, lastMotionTime, isEventOngoing, SessionState())
    }

    /** The session invariant of `Controller.SessionOk`. */
    ghost predicate Valid()
      reads this`isMovieRecording, this`gstProcess, this`movieStartTime,
            this`movieFilename, this`precaptureMovieFilename, this`finalMovieFilename
    {
      SessionOk(SessionState(), config.recordPrecapture)
    }

    constructor (config: Config)
      ensures Valid()
      ensures this.config == config
      ensures detectedMotionConsecutiveFrames == 0 && lastMotionTime == 0 && !isEventOngoing
      ensures !isMovieRecording && gstProcess == None && movieStartTime == 0
      ensures movieFilename == None && precaptureMovieFilename == NoPrecapture && finalMovieFilename == None
      ensures frameBuffer == [] && isPrecaptureRecorded == map[]
      ensures trace == []
    {
      this.config := config;
      detectedMotionConsecutiveFrames := 0;
      lastMotionTime := 0;
      isEventOngoing := false;
      isMovieRecording := false;
      gstProcess := None;
      movieStartTime := 0;
      movieFilename := None;
      precaptureMovieFilename := NoPrecapture;
      finalMovieFilename := None;
      frameBuffer := [];
      isPrecaptureRecorded := map[];
      trace := [];
    }

    /** The loop of `start`: read frames until the camera stops delivering, buffering each frame and then processing it. */
    method Start(startWall: int, cameraOpened: bool, fps: nat, inputs: seq<FrameInput>, area: FrameDetection.Contour -> real)
      requires Valid()
      modifies this`startTime, this`bufferSize, this`frameBuffer,
               this`detectedMotionConsecutiveFrames, this`lastMotionTime, this`isEventOngoing,
               this`isMovieRecording, this`gstProcess, this`movieStartTime, this`movieFilename,
               this`precaptureMovieFilename, this`finalMovieFilename, this`trace
      ensures Valid()
      ensures startTime == startWall
      ensures !cameraOpened ==>
        && frameBuffer == old(frameBuffer) && bufferSize == old(bufferSize)
        && ControlState() == old(ControlState()) && unchanged(this`trace)
      ensures cameraOpened ==>
        bufferSize == config.precaptureSeconds * fps && frameBuffer == Buffered(old(frameBuffer), FramesOf(inputs), bufferSize)
      ensures cameraOpened ==>
        var r := ProcessedFrames(old(ControlState()), config, old(frameBuffer), bufferSize, startWall, inputs, area);
        ControlState() == r.next && trace == old(trace) + r.actions
    {
      startTime := startWall;
      if !cameraOpened {
        return;
      }
      bufferSize := config.precaptureSeconds * fps;
      ghost var c0, b0, t0 := ControlState(), frameBuffer, trace;
      for i := 0 to |inputs|
        invariant Valid()
        invariant startTime == startWall && bufferSize == config.precaptureSeconds * fps
        invariant frameBuffer == Buffered(b0, FramesOf(inputs[..i]), bufferSize)
        invariant ControlState() == ProcessedFrames(c0, config, b0, bufferSize, startWall, inputs[..i], area).next
        invariant trace == t0 + ProcessedFrames(c0, config, b0, bufferSize, startWall, inputs[..i], area).actions
      {
        ghost var prev := ProcessedFrames(c0, config, b0, bufferSize, startWall, inputs[..i], area);
        ProcessedInput(c0, config, b0, bufferSize, startWall, inputs, i, area);
        BufferedInput(b0, inputs, i, bufferSize);
        ReadFrame(inputs[i], area);
        ghost var step := FrameStep(prev.next, config, frameBuffer, Motion(config, inputs[i], area),
                                    inputs[i].ctx.wall - startWall > SoakSeconds, inputs[i].ctx);
        AppendAssoc(t0, prev.actions, step.actions);
      }
      assert inputs[..|inputs|] == inputs;
    }

    /** One pass of the loop of `start`: buffer the frame, then process it. */
    method ReadFrame(input: FrameInput, area: FrameDetection.Contour -> real)
      requires Valid()
      modifies this`frameBuffer,
               this`detectedMotionConsecutiveFrames, this`lastMotionTime, this`isEventOngoing,
               this`isMovieRecording, this`gstProcess, this`movieStartTime, this`movieFilename,
               this`precaptureMovieFilename, this`finalMovieFilename, this`trace
      ensures Valid()
      ensures frameBuffer == Pushed(old(frameBuffer), input.frame, bufferSize)
      ensures var r := FrameStep(old(ControlState()), config, frameBuffer, Motion(config, input, area),
                                 input.ctx.wall - startTime > SoakSeconds, input.ctx);
        ControlState() == r.next && trace == old(trace) + r.actions
    {
      PushFrame(input.frame);
      ProcessFrame(input.contours, area, input.ctx);
    }

    /** Append a frame to the pre-capture buffer and drop the oldest one if it is then over capacity. */
    method PushFrame(frame: Frame)
      modifies this`frameBuffer
      ensures frameBuffer == Pushed(old(frameBuffer), frame, bufferSize)
    {
      frameBuffer := frameBuffer + [frame];
      if |frameBuffer| > bufferSize {
        frameBuffer := frameBuffer[1..];
      }
    }

    /** `process_frame`: filter the contours by area, then detect motion once the soak period is over. */
    method ProcessFrame(contours: seq<FrameDetection.Contour>, area: FrameDetection.Contour -> real, ctx: FrameContext)
      requires Valid()
      modifies this`detectedMotionConsecutiveFrames, this`lastMotionTime, this`isEventOngoing,
               this`isMovieRecording, this`gstProcess, this`movieStartTime, this`movieFilename,
               this`precaptureMovieFilename, this`finalMovieFilename, this`trace
      ensures Valid()
      ensures var motion := |FrameDetection.Matching(contours, area, config.minArea, config.maxArea)| > 0;
        var soaked := ctx.wall - startTime > SoakSeconds;
        var r := FrameStep(old(ControlState()), config, frameBuffer, motion, soaked, ctx);
        ControlState() == r.next && trace == old(trace) + r.actions
    {
      var matching := FrameDetection.FindContours(contours, area, config.minArea, config.maxArea);
      if ctx.wall - startTime > SoakSeconds {
        DetectMotion(matching, ctx);
      }
    }

    /** `detect_motion`: one step of the state machine for a frame whose filtered contours are `contours`. */
    method DetectMotion(contours: seq<FrameDetection.Contour>, ctx: FrameContext)
      requires Valid()
      modifies this`detectedMotionConsecutiveFrames, this`lastMotionTime, this`isEventOngoing,
               this`isMovieRecording, this`gstProcess, this`movieStartTime, this`movieFilename,
               this`precaptureMovieFilename, this`finalMovieFilename, this`trace
      ensures Valid()
      ensures var r := DetectStep(old(ControlState()), config, frameBuffer, |contours| > 0, ctx);
        ControlState() == r.next && trace == old(trace) + r.actions
    {
      ghost var c0 := ControlState();
      var motionDetected := false;
      if |contours| > 0 {
        detectedMotionConsecutiveFrames := detectedMotionConsecutiveFrames + 1;
        motionDetected := true;
        lastMotionTime := ctx.now;
      }

      if motionDetected && detectedMotionConsecutiveFrames >= config.consecutiveFrames {
        HandleMotionDetection(ctx);
      } else if motionDetected {
      } else {
        detectedMotionConsecutiveFrames := 0;
        if isEventOngoing {
          if ctx.now - lastMotionTime > config.noMotionTimeout {
            ghost var c1 := ControlState();
            StopEvent();
            StopMovieRecording(ctx.stopOk);
            AppendAssoc(old(trace), [RunHook(OnEventEnd, None)], StopRecording(c1.session, ctx.stopOk).actions);
          }
        }
      }
      ghost var p := MotionPhase(c0, config, frameBuffer, motionDetected, ctx);
      assert ControlState() == p.next && trace == old(trace) + p.actions;

      CheckRecording(ctx);
      ghost var q := RecordingPhase(p.next, config, frameBuffer, ctx);
      ghost var r := DetectStep(c0, config, frameBuffer, motionDetected, ctx);
      assert r == Step(q.next, p.actions + q.actions);
      AppendAssoc(old(trace), p.actions, q.actions);
      assert ControlState() == r.next && trace == old(trace) + r.actions;
      DetectStepKeepsSessionOk(c0, config, frameBuffer, motionDetected, ctx);
      assert SessionOk(SessionState(), config.recordPrecapture);
    }

    /** The last part of `detect_motion`: roll a recording over once it exceeds the maximum duration, and stop a recording that outlived its event. */
    method CheckRecording(ctx: FrameContext)
      modifies this`isMovieRecording, this`gstProcess, this`movieStartTime, this`movieFilename,
               this`precaptureMovieFilename, this`finalMovieFilename, this`trace
      ensures var r := RecordingPhase(old(ControlState()), config, frameBuffer, ctx);
        ControlState() == r.next && trace == old(trace) + r.actions
    {
      if isEventOngoing && isMovieRecording && gstProcess.Some? {
        if ctx.now - movieStartTime > config.maxDuration {
          ghost var stop := StopRecording(SessionState(), ctx.stopOk);
          StopMovieRecording(ctx.stopOk);
          StartMovieRecording(ctx.now, ctx.stamp, ctx.launchOk);
          AppendAssoc(old(trace), stop.actions, StartRecording(stop.next, config, frameBuffer, ctx.now, ctx.stamp, ctx.launchOk).actions);
        }
      } else if isMovieRecording {
        StopMovieRecording(ctx.stopOk);
      }
    }

    /** `handle_motion_detection`. */
    method HandleMotionDetection(ctx: FrameContext)
      modifies this`isEventOngoing, this`isMovieRecording, this`gstProcess, this`movieStartTime,
               this`movieFilename, this`precaptureMovieFilename, this`finalMovieFilename, this`trace
      ensures var r := Confirm(old(ControlState()), config, frameBuffer, ctx);
        ControlState() == r.next && trace == old(trace) + r.actions
    {
      ghost var ev := if isEventOngoing then [] else EventStartActions(config, ctx.stamp);
      if !isEventOngoing {
        StartEvent(ctx.stamp);
      }
      ghost var t1 := trace;
      if !isMovieRecording && !config.movieEnable {
        StartMovieRecording(ctx.now, ctx.stamp, ctx.launchOk);
        AppendAssoc(old(trace), ev, trace[|t1|..]);
      }
    }

    /** `start_event`: mark the event as ongoing, run the start hook, and take a picture if pictures are enabled. */
    method StartEvent(stamp: string)
      modifies this`isEventOngoing, this`trace
      ensures isEventOngoing
      ensures trace == old(trace) + EventStartActions(config, stamp)
    {
      isEventOngoing := true;
      trace := trace + [RunHook(OnEventStart, None)];
      if config.pictureEnable {
        TakePicture(stamp);
      }
    }

    /** `stop_event`: mark the event as over and run the end hook, whether or not an event was ongoing. */
    method StopEvent()
      modifies this`isEventOngoing, this`trace
      ensures !isEventOngoing
      ensures trace == old(trace) + [RunHook(OnEventEnd, None)]
    {
      isEventOngoing := false;
      trace := trace + [RunHook(OnEventEnd, None)];
    }

    /** `take_picture`: save a picture named after the timestamp and run the picture hook on it. */
    method TakePicture(stamp: string)
      modifies this`trace
      ensures trace == old(trace) + PictureActions(config, stamp)
    {
      var filename := PicturePath(config, stamp);
      trace := trace + [PictureSaved(filename), RunHook(OnPictureSave, Some(filename))];
    }

    /**
      `start_movie_recording`: derive the session's names from the timestamp,
      start the pre-capture job if enabled, then launch the encoder. A failed
      launch keeps the flag, the handle and the start time, but the names are
      already replaced and the pre-capture job already started.
     */
    method StartMovieRecording(now: int, stamp: string, launchOk: bool)
      modifies this`movieFilename, this`precaptureMovieFilename, this`finalMovieFilename,
               this`gstProcess, this`isMovieRecording, this`movieStartTime, this`trace
      ensures var r := StartRecording(old(SessionState()), config, frameBuffer, now, stamp, launchOk);
        SessionState() == r.next && trace == old(trace) + r.actions
    {
      var n := NamesFor(config, stamp);
      movieFilename := Some(n.movie);
      precaptureMovieFilename := n.precapture;
      finalMovieFilename := Some(n.final);
      if launchOk {
        gstProcess := Some(Process(n.movie));
        isMovieRecording := true;
        movieStartTime := now;
      }
      trace := trace + StartActions(config.recordPrecapture, frameBuffer, n, launchOk);
    }

    /**
      `stop_movie_recording`: with an encoder, stop it, clear the session and
      hand its names to post-processing; a failure to stop changes nothing.
     */
    method StopMovieRecording(stopOk: bool)
      modifies this`movieFilename, this`precaptureMovieFilename, this`finalMovieFilename,
               this`gstProcess, this`isMovieRecording, this`movieStartTime, this`trace
      ensures var r := StopRecording(old(SessionState()), stopOk);
        SessionState() == r.next && trace == old(trace) + r.actions
    {
      if gstProcess.Some? {
        if stopOk {
          trace := trace + [EncoderStopped(gstProcess.value),
                            PostProcessingScheduled(precaptureMovieFilename, movieFilename, finalMovieFilename)];
          gstProcess := None;
          isMovieRecording := false;
          movieStartTime := 0;
          precaptureMovieFilename := NoneTuple;
          movieFilename := None;
          finalMovieFilename := None;
        } else {
          trace := trace + [EncoderStopFailed(gstProcess.value)];
        }
      }
    }

    /**
      `record_precapture_frames`, run as the background job that
      `start_movie_recording` starts: write each buffered frame four times,
      then mark the clip complete in the shared table.
     */
    method RecordPrecaptureFrames(frames: seq<Frame>, path: string) returns (written: seq<Frame>)
      modifies this`isPrecaptureRecorded, this`trace
      ensures RepeatsEach(written, frames, PrecaptureRepeat)
      ensures isPrecaptureRecorded == old(isPrecaptureRecorded)[path := true]
      ensures trace == old(trace) + [PrecaptureEncoded(path, written)]
    {
      written := WriteRepeated(frames);
      trace := trace + [PrecaptureEncoded(path, written)];
      isPrecaptureRecorded := isPrecaptureRecorded[path := true];
    }

    /**
      `concatenate_movies`: check the completion table up to 30 times; if the
      pre-capture clip never shows up, report failure without running the
      tool; otherwise write a two-line list, pre-capture clip first, and run
      the concatenation tool, reporting its exit status and error output.
      `tableAt(k)` is the table as the k-th check reads it.
     */
    method ConcatenateMovies(movie1: PrecaptureName, movie2: string, output: string,
                             tableAt: nat -> map<string, bool>, toolOk: bool, toolStderr: string)
      returns (success: bool, message: string, polls: nat, run: Option<Action>)
      requires forall k :: MarksKept(isPrecaptureRecorded, tableAt(k))
      ensures 1 <= polls <= MaxPolls
      ensures Marked(isPrecaptureRecorded, movie1) ==> polls == 1 && run.Some?
      ensures forall k :: 0 <= k < polls - 1 ==> !Marked(tableAt(k), movie1)
      ensures run.Some? <==> MarkedWithin(tableAt, movie1, MaxPolls)
      ensures run.Some? ==> Marked(tableAt(polls - 1), movie1)
      ensures run.None? ==> polls == MaxPolls && !success && message == NotFoundMessage
      ensures run.Some? ==>
        && movie1.PrecaptureFile?
        && run == Some(ConcatToolRun(PathJoin(config.tmpDir, FileListName),
                                     [ConcatListLine(movie1.path), ConcatListLine(movie2)], output))
        && success == toolOk && message == toolStderr
    {
      if Marked(isPrecaptureRecorded, movie1) {
        // A clip already marked when post-processing starts is seen by every poll.
        assert MarksKept(isPrecaptureRecorded, tableAt(0));
        assert Marked(tableAt(0), movie1);
      }
      var movie1Exists := false;
      polls := 0;
      for i := 0 to MaxPolls
        invariant polls == i && !movie1Exists
        invariant forall k :: 0 <= k < i ==> !Marked(tableAt(k), movie1)
      {
        polls := polls + 1;
        if Marked(tableAt(i), movie1) {
          movie1Exists := true;
          break;
        }
      }
      if !movie1Exists {
        return false, NotFoundMessage, polls, None;
      }
      var fileList := PathJoin(config.tmpDir, FileListName);
      run := Some(ConcatToolRun(fileList, [ConcatListLine(movie1.path), ConcatListLine(movie2)], output));
      success, message := toolOk, toolStderr;
    }

    /**
      `on_movie_end_action`, run as the background job that stopping a
      recording schedules: with pre-capture on, try the concatenation; then run
      the movie-end hook once. The file handed to the hook follows
      `IntendedMovieEndFilename`: as written when the concatenation tool ran,
      and the segment when the pre-capture clip never completed.
     */
    method OnMovieEndAction(precapture: PrecaptureName, movie: string, final: string,
                            tableAt: nat -> map<string, bool>, toolOk: bool, toolStderr: string)
      requires forall k :: MarksKept(isPrecaptureRecorded, tableAt(k))
      modifies this`trace
      ensures config.recordPrecapture && Marked(isPrecaptureRecorded, precapture) ==>
        |trace| == |old(trace)| + 2 && trace[|old(trace)|].ConcatToolRun?
      ensures var ran := config.recordPrecapture && MarkedWithin(tableAt, precapture, MaxPolls);
        var name := IntendedMovieEndFilename(config.recordPrecapture, ran, ran && toolOk, movie, final);
        && |trace| == |old(trace)| + (if ran then 2 else 1)
        && trace[..|old(trace)|] == old(trace)
        && (ran ==> trace[|old(trace)|].ConcatToolRun? && trace[|old(trace)|].output == final)
        && trace[|trace| - 1] == RunHook(OnMovieEnd, Some(name))
      ensures Hooks(trace, OnMovieEnd) == Hooks(old(trace), OnMovieEnd) + 1
    {
      var finalMovieName := final;
      ghost var concat: seq<Action> := [];
      if config.recordPrecapture {
        var success, errorMessage, polls, run := ConcatenateMovies(precapture, movie, final, tableAt, toolOk, toolStderr);
        if run.Some? {
          concat := [run.value];
          trace := trace + concat;
        }
        if success || run.None? {
          finalMovieName := movie;
        }
      }
      trace := trace + [RunHook(OnMovieEnd, Some(finalMovieName))];
      HooksAppend(old(trace), concat + [RunHook(OnMovieEnd, Some(finalMovieName))], OnMovieEnd);
      HooksAppend(concat, [RunHook(OnMovieEnd, Some(finalMovieName))], OnMovieEnd);
    }
  }
}
