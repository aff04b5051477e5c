/**
  The per-frame decisions of `MotionDetector` as functions on values: the
  debounce/event state and the recording session before a frame, and what
  they become after it, together with the external actions taken on the way.
  The class in motion_detector.dfy is proved to follow these functions; the
  lemmas here state what the decisions guarantee.
 */
module Controller {
  import opened Wrappers
  import opened Lifecycle

  /** What the outside world supplies for one frame: clock readings, the formatted timestamp and the encoder outcomes. */
  datatype FrameContext = FrameContext(
    wall: int,         // time.time(), for the soak gate
    now: int,          // tick count over tick frequency, for timeouts and durations
    stamp: string,     // datetime.now() formatted as %Y%m%d_%H%M%S
    launchOk: bool,    // whether starting an encoder process succeeds
    stopOk: bool)      // whether signalling and waiting for an encoder succeeds

  /** The recording fields: `is_movie_recording`, `gst_process`, `movie_start_time` and the three file names. */
  datatype Session = Session(
    recording: bool,
    process: Option<Process>,
    startTime: int,
    movie: Option<string>,
    precapture: PrecaptureName,
    final: Option<string>)

  /** The fields one frame of detection may change. */
  datatype Control = Control(counter: nat, lastMotion: int, eventOngoing: bool, session: Session)

  /** A new value and the actions taken to reach it, oldest first. */
  datatype Step<S> = Step(next: S, actions: seq<Action>)

  /**
    The session invariant: the recording flag is set exactly when an encoder
    handle is held, and a held handle comes with the names of its session.
   */
  predicate SessionOk(s: Session, recordPrecapture: bool) {
    && (s.recording <==> s.process.Some?)
    && (s.process.Some? ==>
          s.movie.Some? && s.final.Some? && (s.precapture.PrecaptureFile? <==> recordPrecapture))
  }

  // ------------------------------------------------------------ actions

  function PictureActions(config: Config, stamp: string): seq<Action> {
    var p := PicturePath(config, stamp);
    [PictureSaved(p), RunHook(OnPictureSave, Some(p))]
  }

  function EventStartActions(config: Config, stamp: string): seq<Action> {
    [RunHook(OnEventStart, None)] + (if config.pictureEnable then PictureActions(config, stamp) else [])
  }

  function StartActions(recordPrecapture: bool, buffer: seq<Frame>, n: SessionNames, launchOk: bool): seq<Action>
    requires recordPrecapture ==> n.precapture.PrecaptureFile?
  {
    (if recordPrecapture then [PrecaptureJobStarted(buffer, n.precapture.path)] else [])
    + (if launchOk then [EncoderStarted(Process(n.movie)), RunHook(OnMovieStart, Some(n.final))]
       else [EncoderLaunchFailed(n.movie)])
  }

  // ------------------------------------------------- session operations

  /**
    `start_movie_recording`: the names are replaced in every case; the handle,
    the flag and the start time only when the encoder launches.
   */
  function StartRecording(s: Session, config: Config, buffer: seq<Frame>, now: int, stamp: string, launchOk: bool): (r: Step<Session>)
    ensures SessionOk(s, config.recordPrecapture) ==> SessionOk(r.next, config.recordPrecapture)
    ensures !launchOk ==> r.next.recording == s.recording && r.next.process == s.process && r.next.startTime == s.startTime
    ensures var n := NamesFor(config, stamp);
      r.next.movie == Some(n.movie) && r.next.precapture == n.precapture && r.next.final == Some(n.final)
    ensures launchOk ==> r.next.recording && r.next.process == Some(Process(r.next.movie.value)) && r.next.startTime == now
    ensures config.recordPrecapture ==>
      |r.actions| > 0 && r.actions[0] == PrecaptureJobStarted(buffer, NamesFor(config, stamp).precapture.path)
    ensures launchOk ==>
      |r.actions| > 0 && r.actions[|r.actions| - 1] == RunHook(OnMovieStart, Some(NamesFor(config, stamp).final))
  {
    var n := NamesFor(config, stamp);
    Step(
      Session(
        s.recording || launchOk,
        if launchOk then Some(Process(n.movie)) else s.process,
        if launchOk then now else s.startTime,
        Some(n.movie), n.precapture, Some(n.final)),
      StartActions(config.recordPrecapture, buffer, n, launchOk))
  }

  /** `stop_movie_recording`: nothing without a handle; a failed stop changes nothing either. */
  function StopRecording(s: Session, stopOk: bool): (r: Step<Session>)
    ensures s.process.Some? && stopOk ==>
      && r.next == Session(false, None, 0, None, NoneTuple, None)
      && r.actions == [EncoderStopped(s.process.value), PostProcessingScheduled(s.precapture, s.movie, s.final)]
    ensures !(s.process.Some? && stopOk) ==> r.next == s
    ensures s.process.None? ==> r.actions == []
    ensures s.process.Some? && !stopOk ==> r.actions == [EncoderStopFailed(s.process.value)]
    ensures forall rp :: SessionOk(s, rp) ==> SessionOk(r.next, rp)
  {
    if s.process.None? then Step(s, [])
    else if stopOk then
      Step(Session(false, None, 0, None, NoneTuple, None),
           [EncoderStopped(s.process.value), PostProcessingScheduled(s.precapture, s.movie, s.final)])
    else Step(s, [EncoderStopFailed(s.process.value)])
  }

  // ------------------------------------------------------ one frame

  /**
    `handle_motion_detection`, on a state whose counter and last-motion time
    are already updated: start the event if none is ongoing, and start
    recording when not recording and `movie.enable` is off.
   */
  function Confirm(c: Control, config: Config, buffer: seq<Frame>, ctx: FrameContext): Step<Control> {
    var ev := if c.eventOngoing then [] else EventStartActions(config, ctx.stamp);
    var rec := if !c.session.recording && !config.movieEnable
               then StartRecording(c.session, config, buffer, ctx.now, ctx.stamp, ctx.launchOk)
               else Step(c.session, []);
    Step(c.(eventOngoing := true, session := rec.next), ev + rec.actions)
  }

  /**
    `handle_motion_detection` always leaves an event ongoing and keeps the
    debounce fields; it starts a recording, with the names derived from the
    frame's timestamp, exactly when none is running and `movie.enable` is off.
   */
  lemma ConfirmOutcome(c: Control, config: Config, buffer: seq<Frame>, ctx: FrameContext)
    ensures var r := Confirm(c, config, buffer, ctx);
      && r.next.eventOngoing && r.next.counter == c.counter && r.next.lastMotion == c.lastMotion
      && (c.session.recording || config.movieEnable ==> r.next.session == c.session)
      && (!c.session.recording && !config.movieEnable ==>
            r.next.session.movie == Some(NamesFor(config, ctx.stamp).movie) && (r.next.session.recording <==> ctx.launchOk))
  {
  }

  /** `stop_event` followed by `stop_movie_recording`, when the no-motion timeout expires. */
  function EndEvent(c: Control, stopOk: bool): (r: Step<Control>)
    ensures !r.next.eventOngoing && r.next.counter == c.counter && r.next.lastMotion == c.lastMotion
    ensures |r.actions| > 0 && r.actions[0] == RunHook(OnEventEnd, None)
    ensures c.session.process.Some? && stopOk ==> !r.next.session.recording
  {
    var stop := StopRecording(c.session, stopOk);
    Step(c.(eventOngoing := false, session := stop.next), [RunHook(OnEventEnd, None)] + stop.actions)
  }

  /** The debounce and timeout part of `detect_motion`: count the run, confirm through `handle_motion_detection`, or end the event. */
  function MotionPhase(c: Control, config: Config, buffer: seq<Frame>, motion: bool, ctx: FrameContext): (r: Step<Control>)
    ensures r.next.counter == if motion then c.counter + 1 else 0
    ensures r.next.lastMotion == if motion then ctx.now else c.lastMotion
    ensures r.next.eventOngoing <==>
      Confirms(c, config, motion) || (c.eventOngoing && !Expires(c, config, motion, ctx.now))
    ensures !Confirms(c, config, motion) && !Expires(c, config, motion, ctx.now) ==>
      r.next.session == c.session && r.actions == []
  {
    if motion then
      var c1 := c.(counter := c.counter + 1, lastMotion := ctx.now);
      if c1.counter >= config.consecutiveFrames then Confirm(c1, config, buffer, ctx) else Step(c1, [])
    else
      var c1 := c.(counter := 0);
      if c1.eventOngoing && ctx.now - c1.lastMotion > config.noMotionTimeout then EndEvent(c1, ctx.stopOk) else Step(c1, [])
  }

  /** The recording part of `detect_motion`: duration rollover, or stopping a recording that outlived its event. */
  function RecordingPhase(c: Control, config: Config, buffer: seq<Frame>, ctx: FrameContext): (r: Step<Control>)
    ensures r.next.counter == c.counter && r.next.lastMotion == c.lastMotion && r.next.eventOngoing == c.eventOngoing
    ensures !c.session.recording ==> r.next == c && r.actions == []
  {
    if c.eventOngoing && c.session.recording && c.session.process.Some? then
      if ctx.now - c.session.startTime > config.maxDuration then
        var stop := StopRecording(c.session, ctx.stopOk);
        var start := StartRecording(stop.next, config, buffer, ctx.now, ctx.stamp, ctx.launchOk);
        Step(c.(session := start.next), stop.actions + start.actions)
      else
        Step(c, [])
    else if c.session.recording then
      var stop := StopRecording(c.session, ctx.stopOk);
      Step(c.(session := stop.next), stop.actions)
    else
      Step(c, [])
  }

  /** True when the frame confirms motion: it has contours and the run of motion frames reaches the threshold. */
  predicate Confirms(c: Control, config: Config, motion: bool) {
    motion && c.counter + 1 >= config.consecutiveFrames
  }

  /** True when the frame ends the event: no contours, an event ongoing, and strictly more than the timeout since the last motion. */
  predicate Expires(c: Control, config: Config, motion: bool, now: int) {
    !motion && c.eventOngoing && now - c.lastMotion > config.noMotionTimeout
  }

  /** One call of `detect_motion`. */
  function DetectStep(c: Control, config: Config, buffer: seq<Frame>, motion: bool, ctx: FrameContext): (r: Step<Control>)
    ensures r.next.counter == if motion then c.counter + 1 else 0
    ensures r.next.lastMotion == if motion then ctx.now else c.lastMotion
    ensures r.next.eventOngoing <==>
      Confirms(c, config, motion) || (c.eventOngoing && !Expires(c, config, motion, ctx.now))
  {
    var p := MotionPhase(c, config, buffer, motion, ctx);
    var q := RecordingPhase(p.next, config, buffer, ctx);
    Step(q.next, p.actions + q.actions)
  }

  /** `process_frame`: frames before the end of the soak period leave the state alone. */
  function FrameStep(c: Control, config: Config, buffer: seq<Frame>, motion: bool, soaked: bool, ctx: FrameContext): (r: Step<Control>)
    ensures !soaked ==> r.next == c && r.actions == []
    ensures r.next.eventOngoing && !c.eventOngoing ==> soaked && Confirms(c, config, motion)
  {
    if soaked then DetectStep(c, config, buffer, motion, ctx) else Step(c, [])
  }

  // ------------------------------------------------------------ lemmas

  /** No action in `t` runs the event start or event end hook. */
  predicate NoEventHooks(t: seq<Action>) {
    forall i :: 0 <= i < |t| ==> !(t[i].RunHook? && (t[i].hook == OnEventStart || t[i].hook == OnEventEnd))
  }

  /** Starting a recording runs the movie-start hook once if the encoder launches and never if it fails. */
  lemma MovieStartHookOnLaunch(s: Session, config: Config, buffer: seq<Frame>, now: int, stamp: string, launchOk: bool)
    ensures Hooks(StartRecording(s, config, buffer, now, stamp, launchOk).actions, OnMovieStart) == if launchOk then 1 else 0
  {
    var n := NamesFor(config, stamp);
    var job: seq<Action> := if config.recordPrecapture then [PrecaptureJobStarted(buffer, n.precapture.path)] else [];
    var launch := if launchOk then [EncoderStarted(Process(n.movie)), RunHook(OnMovieStart, Some(n.final))]
                  else [EncoderLaunchFailed(n.movie)];
    assert StartRecording(s, config, buffer, now, stamp, launchOk).actions == job + launch;
    HooksAppend(job, launch, OnMovieStart);
    HooksAbsent(job, OnMovieStart);
    if launchOk {
      HooksAppend([EncoderStarted(Process(n.movie))], [RunHook(OnMovieStart, Some(n.final))], OnMovieStart);
      HooksAbsent([EncoderStarted(Process(n.movie))], OnMovieStart);
      assert [EncoderStarted(Process(n.movie))] + [RunHook(OnMovieStart, Some(n.final))] == launch;
    } else {
      HooksAbsent(launch, OnMovieStart);
    }
  }

  /**
    A session started with timestamp T and then stopped schedules
    post-processing exactly once, with the names derived from T; starting it
    schedules none.
   */
  lemma StartThenStopSchedulesOnce(s: Session, config: Config, buffer: seq<Frame>, now: int, stamp: string)
    ensures var start := StartRecording(s, config, buffer, now, stamp, true);
      var n := NamesFor(config, stamp);
      && (forall i :: 0 <= i < |start.actions| ==> !start.actions[i].PostProcessingScheduled?)
      && StopRecording(start.next, true).actions
         == [EncoderStopped(Process(n.movie)), PostProcessingScheduled(n.precapture, Some(n.movie), Some(n.final))]
  {
  }

  /** Starting and stopping recordings never runs an event hook. */
  lemma SessionStepsRunNoEventHooks(s: Session, config: Config, buffer: seq<Frame>, now: int, stamp: string, launchOk: bool, stopOk: bool)
    ensures NoEventHooks(StartRecording(s, config, buffer, now, stamp, launchOk).actions)
    ensures NoEventHooks(StopRecording(s, stopOk).actions)
    ensures NoEventHooks(StopRecording(s, stopOk).actions + StartRecording(StopRecording(s, stopOk).next, config, buffer, now, stamp, launchOk).actions)
  {
  }

  lemma EventHooksAbsent(t: seq<Action>)
    requires NoEventHooks(t)
    ensures Hooks(t, OnEventStart) == 0 && Hooks(t, OnEventEnd) == 0
  {
    HooksAbsent(t, OnEventStart);
    HooksAbsent(t, OnEventEnd);
  }

  /** The recording phase of a frame never runs an event hook. */
  lemma RecordingPhaseRunsNoEventHooks(c: Control, config: Config, buffer: seq<Frame>, ctx: FrameContext)
    ensures NoEventHooks(RecordingPhase(c, config, buffer, ctx).actions)
  {
    SessionStepsRunNoEventHooks(c.session, config, buffer, ctx.now, ctx.stamp, ctx.launchOk, ctx.stopOk);
  }

  /** The event start actions run the start hook once and the end hook never. */
  lemma EventStartActionsHooks(config: Config, stamp: string)
    ensures Hooks(EventStartActions(config, stamp), OnEventStart) == 1
    ensures Hooks(EventStartActions(config, stamp), OnEventEnd) == 0
  {
    var head := [RunHook(OnEventStart, None)];
    var tail := if config.pictureEnable then PictureActions(config, stamp) else [];
    HooksAppend(head, tail, OnEventStart);
    HooksAppend(head, tail, OnEventEnd);
    assert NoEventHooks(tail);
    EventHooksAbsent(tail);
  }

  /** The motion phase runs the start hook once when it confirms motion outside an event, and the end hook once when the event expires. */
  lemma MotionPhaseHooks(c: Control, config: Config, buffer: seq<Frame>, motion: bool, ctx: FrameContext)
    ensures var t := MotionPhase(c, config, buffer, motion, ctx).actions;
      && Hooks(t, OnEventStart) == (if Confirms(c, config, motion) && !c.eventOngoing then 1 else 0)
      && Hooks(t, OnEventEnd) == (if Expires(c, config, motion, ctx.now) then 1 else 0)
  {
    if Confirms(c, config, motion) {
      ConfirmHooks(c.(counter := c.counter + 1, lastMotion := ctx.now), config, buffer, ctx);
    } else if Expires(c, config, motion, ctx.now) {
      EndEventHooks(c.(counter := 0), ctx.stopOk);
    }
  }

  /** `handle_motion_detection` runs the start hook once outside an event and never during one, and never runs the end hook. */
  lemma ConfirmHooks(c: Control, config: Config, buffer: seq<Frame>, ctx: FrameContext)
    ensures var t := Confirm(c, config, buffer, ctx).actions;
      && Hooks(t, OnEventStart) == (if c.eventOngoing then 0 else 1)
      && Hooks(t, OnEventEnd) == 0
  {
    var ev := if c.eventOngoing then [] else EventStartActions(config, ctx.stamp);
    var rec := if !c.session.recording && !config.movieEnable
               then StartRecording(c.session, config, buffer, ctx.now, ctx.stamp, ctx.launchOk).actions
               else [];
    assert Confirm(c, config, buffer, ctx).actions == ev + rec;
    SessionStepsRunNoEventHooks(c.session, config, buffer, ctx.now, ctx.stamp, ctx.launchOk, ctx.stopOk);
    EventHooksAbsent(rec);
    HooksAppend(ev, rec, OnEventStart);
    HooksAppend(ev, rec, OnEventEnd);
    if !c.eventOngoing {
      EventStartActionsHooks(config, ctx.stamp);
    }
  }

  /** Ending an event runs the end hook once and the start hook never. */
  lemma EndEventHooks(c: Control, stopOk: bool)
    ensures var t := EndEvent(c, stopOk).actions;
      Hooks(t, OnEventStart) == 0 && Hooks(t, OnEventEnd) == 1
  {
    var stop := StopRecording(c.session, stopOk).actions;
    assert NoEventHooks(stop);
    HooksAppend([RunHook(OnEventEnd, None)], stop, OnEventStart);
    HooksAppend([RunHook(OnEventEnd, None)], stop, OnEventEnd);
    EventHooksAbsent(stop);
  }

  /** One frame runs the event start hook exactly once if it confirms motion outside an event, and never otherwise. */
  lemma StartHookOnce(c: Control, config: Config, buffer: seq<Frame>, motion: bool, ctx: FrameContext)
    ensures Hooks(DetectStep(c, config, buffer, motion, ctx).actions, OnEventStart)
            == if Confirms(c, config, motion) && !c.eventOngoing then 1 else 0
  {
    var p := MotionPhase(c, config, buffer, motion, ctx);
    var q := RecordingPhase(p.next, config, buffer, ctx);
    HooksAppend(p.actions, q.actions, OnEventStart);
    MotionPhaseHooks(c, config, buffer, motion, ctx);
    RecordingPhaseRunsNoEventHooks(p.next, config, buffer, ctx);
    EventHooksAbsent(q.actions);
  }

  /** One frame runs the event end hook exactly once if it ends the event by timeout, and never otherwise. */
  lemma EndHookOnExpiry(c: Control, config: Config, buffer: seq<Frame>, motion: bool, ctx: FrameContext)
    ensures Hooks(DetectStep(c, config, buffer, motion, ctx).actions, OnEventEnd)
            == if Expires(c, config, motion, ctx.now) then 1 else 0
  {
    var p := MotionPhase(c, config, buffer, motion, ctx);
    var q := RecordingPhase(p.next, config, buffer, ctx);
    HooksAppend(p.actions, q.actions, OnEventEnd);
    MotionPhaseHooks(c, config, buffer, motion, ctx);
    RecordingPhaseRunsNoEventHooks(p.next, config, buffer, ctx);
    EventHooksAbsent(q.actions);
  }

  /**
    When the counter is the length of the current run of motion frames `h`, it
    stays so after the frame, and an event that starts on this frame has the
    last `consecutiveFrames` frames all showing motion.
   */
  lemma EventStartsOnlyAfterRun(c: Control, config: Config, buffer: seq<Frame>, motion: bool, ctx: FrameContext, h: seq<bool>)
    requires c.counter == TrailingMotion(h)
    ensures var r := DetectStep(c, config, buffer, motion, ctx).next; var h' := h + [motion];
      && r.counter == TrailingMotion(h')
      && (!c.eventOngoing && r.eventOngoing ==>
            && config.consecutiveFrames <= |h'|
            && forall i :: |h'| - config.consecutiveFrames <= i < |h'| && 0 <= i ==> h'[i])
  {
    TrailingMotionStep(h, motion);
  }

  /** A frame keeps the session invariant. */
  lemma DetectStepKeepsSessionOk(c: Control, config: Config, buffer: seq<Frame>, motion: bool, ctx: FrameContext)
    requires SessionOk(c.session, config.recordPrecapture)
    ensures SessionOk(DetectStep(c, config, buffer, motion, ctx).next.session, config.recordPrecapture)
  {
    var p := MotionPhase(c, config, buffer, motion, ctx);
    assert SessionOk(p.next.session, config.recordPrecapture);
  }

  /** When encoders stop on request, no recording survives the frame without an event. */
  lemma NoRecordingWithoutEvent(c: Control, config: Config, buffer: seq<Frame>, motion: bool, ctx: FrameContext)
    requires SessionOk(c.session, config.recordPrecapture)
    requires ctx.stopOk
    ensures var r := DetectStep(c, config, buffer, motion, ctx).next;
      r.session.recording ==> r.eventOngoing
  {
    var p := MotionPhase(c, config, buffer, motion, ctx);
    assert SessionOk(p.next.session, config.recordPrecapture);
  }

  /**
    During an event whose recording has run longer than `maxDuration`, a frame
    that does not end the event stops the segment once and starts the next one
    once, and a different timestamp gives the next segment a different file.
   */
  lemma RolloverStopsThenStarts(c: Control, config: Config, buffer: seq<Frame>, motion: bool, ctx: FrameContext, oldStamp: string)
    requires SessionOk(c.session, config.recordPrecapture)
    requires c.eventOngoing && c.session.recording
    requires !Expires(c, config, motion, ctx.now)
    requires ctx.now - c.session.startTime > config.maxDuration
    requires c.session.movie == Some(NamesFor(config, oldStamp).movie) && oldStamp != ctx.stamp
    ensures var r := DetectStep(c, config, buffer, motion, ctx);
      var stop := StopRecording(c.session, ctx.stopOk);
      var start := StartRecording(stop.next, config, buffer, ctx.now, ctx.stamp, ctx.launchOk);
      && r.actions == stop.actions + start.actions
      && r.next.session == start.next
      && r.next.eventOngoing
      && r.next.session.movie != c.session.movie
  {
    var p := MotionPhase(c, config, buffer, motion, ctx);
    assert p.actions == [] && p.next.session == c.session && p.next.eventOngoing;
    NamesInjective(config, oldStamp, ctx.stamp);
  }

  /**
    A frame that ends the event by timeout runs the end hook, stops the
    recording, and starts no new one even if the segment is also over its
    maximum duration; a failed stop is tried once more by the recording phase.
   */
  lemma ExpiryTakesPrecedence(c: Control, config: Config, buffer: seq<Frame>, motion: bool, ctx: FrameContext)
    requires SessionOk(c.session, config.recordPrecapture)
    requires Expires(c, config, motion, ctx.now)
    ensures var r := DetectStep(c, config, buffer, motion, ctx);
      var stop := StopRecording(c.session, ctx.stopOk);
      && r.actions == [RunHook(OnEventEnd, None)] + stop.actions
                      + (if c.session.process.Some? && !ctx.stopOk then stop.actions else [])
      && !r.next.eventOngoing
      && r.next.session == stop.next
      && forall i :: 0 <= i < |r.actions| ==> !r.actions[i].EncoderStarted?
  {
    var p := MotionPhase(c, config, buffer, motion, ctx);
    var stop := StopRecording(c.session, ctx.stopOk);
    assert p.next.session == stop.next && !p.next.eventOngoing;
  }

  /** Within the maximum duration, a frame during an ongoing recorded event leaves the recording alone and acts only through the start hook path. */
  lemma NoRolloverWithinDuration(c: Control, config: Config, buffer: seq<Frame>, motion: bool, ctx: FrameContext)
    requires SessionOk(c.session, config.recordPrecapture)
    requires c.eventOngoing && c.session.recording
    requires !Expires(c, config, motion, ctx.now)
    requires ctx.now - c.session.startTime <= config.maxDuration
    ensures var r := DetectStep(c, config, buffer, motion, ctx);
      r.actions == [] && r.next.session == c.session && r.next.eventOngoing
  {
    var p := MotionPhase(c, config, buffer, motion, ctx);
    assert p.actions == [] && p.next.session == c.session && p.next.eventOngoing;
  }

  /**
    A frame that confirms motion while idle runs the event start actions and,
    when the movie setting lets it, starts one recording; a non-negative
    maximum duration keeps the fresh segment from rolling over at once.
   */
  lemma EventStartFromIdle(c: Control, config: Config, buffer: seq<Frame>, motion: bool, ctx: FrameContext)
    requires SessionOk(c.session, config.recordPrecapture)
    requires !c.eventOngoing && !c.session.recording
    requires Confirms(c, config, motion)
    requires config.maxDuration >= 0
    ensures var r := DetectStep(c, config, buffer, motion, ctx);
      var start := StartRecording(c.session, config, buffer, ctx.now, ctx.stamp, ctx.launchOk);
      && r.next.eventOngoing
      && r.actions == EventStartActions(config, ctx.stamp) + (if config.movieEnable then [] else start.actions)
      && r.next.session == (if config.movieEnable then c.session else start.next)
      && r.next.session.recording == (!config.movieEnable && ctx.launchOk)
  {
    var p := MotionPhase(c, config, buffer, motion, ctx);
    var start := StartRecording(c.session, config, buffer, ctx.now, ctx.stamp, ctx.launchOk);
    if config.movieEnable {
      assert p.actions == EventStartActions(config, ctx.stamp) + [];
    } else {
      assert p.next.session == start.next;
    }
  }

  /** A frame that neither confirms motion nor finds an event or a recording does nothing but update the counter. */
  lemma IdleFrameIsSilent(c: Control, config: Config, buffer: seq<Frame>, motion: bool, ctx: FrameContext)
    requires SessionOk(c.session, config.recordPrecapture)
    requires !c.eventOngoing && !c.session.recording
    requires !Confirms(c, config, motion)
    ensures var r := DetectStep(c, config, buffer, motion, ctx);
      r.actions == [] && r.next.session == c.session && !r.next.eventOngoing
  {
  }
}
