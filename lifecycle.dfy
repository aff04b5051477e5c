/**
  Values and specification functions of the event/recording lifecycle of
  `MotionDetector`: its configuration, the external actions it performs, the
  file names of a recording session, the pre-capture ring buffer, the motion
  debounce counter and the choice of the file handed to the movie-end hook.
 */
module Lifecycle {
  import opened Wrappers

  /** A captured video frame; its pixels belong to the image library. */
  type Frame

  /** Seconds after `start` during which detections are ignored. */
  const SoakSeconds := 10
  /** Each buffered frame is written this many times into the pre-capture clip. */
  const PrecaptureRepeat := 4
  /** Number of times post-processing checks the completion table. */
  const MaxPolls := 30
  const NotFoundMessage := "Pre-capture movie not found."
  const FileListName := "file_list.txt"

  /**
    The configuration fields the controller reads. Times are in seconds;
    `precaptureSeconds` times the camera frame rate gives the buffer capacity.
   */
  datatype Config = Config(
    consecutiveFrames: int,
    minArea: int,
    maxArea: int,
    noMotionTimeout: int,
    maxDuration: int,
    precaptureSeconds: nat,
    movieEnable: bool,
    recordPrecapture: bool,
    movieDir: string,
    tmpDir: string,
    pictureEnable: bool,
    pictureDir: string)

  /** The shell command templates of the configuration's event section. */
  datatype HookName = OnEventStart | OnEventEnd | OnMovieStart | OnMovieEnd | OnPictureSave

  /** A running encoder process, identified by the file it writes. */
  datatype Process = Process(location: string)

  /**
    The value of `precapture_movie_filename`: `None`, a path, or the one-element
    tuple `(None,)` that stopping a recording leaves behind.
   */
  datatype PrecaptureName = NoPrecapture | PrecaptureFile(path: string) | NoneTuple

  /** An externally visible action of the controller. */
  datatype Action =
    | RunHook(hook: HookName, filename: Option<string>)
    | PictureSaved(path: string)
    | PrecaptureJobStarted(frames: seq<Frame>, path: string)
    | PrecaptureEncoded(path: string, written: seq<Frame>)
    | EncoderStarted(process: Process)
    | EncoderLaunchFailed(location: string)
    | EncoderStopped(process: Process)
    | EncoderStopFailed(process: Process)
    | PostProcessingScheduled(precapture: PrecaptureName, movie: Option<string>, final: Option<string>)
    | ConcatToolRun(listPath: string, listing: seq<string>, output: string)

  // ---------------------------------------------------------------- paths

  /** What `os.path.join` puts before a relative name: the directory, plus a separator unless it is empty or already ends in one. */
  function DirPrefix(dir: string): (p: string)
    ensures dir <= p && |p| <= |dir| + 1
    ensures p == [] || p[|p| - 1] == '/'
  {
    if dir == [] || dir[|dir| - 1] == '/' then dir else dir + "/"
  }

  /** `os.path.join(dir, name)`. */
  function PathJoin(dir: string, name: string): string {
    if |name| > 0 && name[0] == '/' then name else DirPrefix(dir) + name
  }

  /**
    An absolute name replaces the directory; a relative one follows the
    directory and, unless the directory is empty or ends in one, a separator.
   */
  lemma PathJoinShape(dir: string, name: string)
    ensures var p := PathJoin(dir, name);
      if |name| > 0 && name[0] == '/' then p == name
      else
        && ((dir == [] || dir[|dir| - 1] == '/') ==> p == dir + name)
        && ((dir != [] && dir[|dir| - 1] != '/') ==> p == dir + "/" + name)
        && dir <= p
        && |name| <= |p| <= |dir| + 1 + |name|
        && p[|p| - |name|..] == name
        && (|p| > |name| ==> p[|p| - |name| - 1] == '/')
  {
    var p := PathJoin(dir, name);
    if !(|name| > 0 && name[0] == '/') {
      assert p == DirPrefix(dir) + name;
      assert p[|p| - |name|..] == name;
    }
  }

  /** The three file names of one recording session. */
  datatype SessionNames = SessionNames(movie: string, precapture: PrecaptureName, final: string)

  /** The names `start_movie_recording` derives from a timestamp. */
  function NamesFor(config: Config, stamp: string): (n: SessionNames)
    ensures config.recordPrecapture <==> n.precapture.PrecaptureFile?
    ensures !config.recordPrecapture ==> n.precapture == NoPrecapture && n.final == n.movie
  {
    if config.recordPrecapture then
      SessionNames(
        PathJoin(config.tmpDir, "movie_" + stamp + ".mp4"),
        PrecaptureFile(PathJoin(config.tmpDir, "precapture_movie_" + stamp + ".mp4")),
        PathJoin(config.movieDir, "final_movie_" + stamp + ".mp4"))
    else
      var movie := PathJoin(config.movieDir, "movie_" + stamp + ".mp4");
      SessionNames(movie, NoPrecapture, movie)
  }

  /**
    Where the files go: with pre-capture on, the segment and the pre-capture
    clip in the temporary directory and the final movie in the movie
    directory; otherwise one file in the movie directory serves as both
    segment and final movie. The generated names never start with a
    separator, so each is the directory, a separator where needed, and the name.
   */
  lemma SessionFileLayout(config: Config, stamp: string)
    ensures var n := NamesFor(config, stamp);
      if config.recordPrecapture then
        && n.movie == DirPrefix(config.tmpDir) + ("movie_" + stamp + ".mp4")
        && n.precapture == PrecaptureFile(DirPrefix(config.tmpDir) + ("precapture_movie_" + stamp + ".mp4"))
        && n.final == DirPrefix(config.movieDir) + ("final_movie_" + stamp + ".mp4")
      else
        && n.movie == DirPrefix(config.movieDir) + ("movie_" + stamp + ".mp4")
        && n.precapture == NoPrecapture
        && n.final == n.movie
  {
    var a, b, c := "movie_" + stamp + ".mp4", "precapture_movie_" + stamp + ".mp4", "final_movie_" + stamp + ".mp4";
    assert a[0] == 'm' && b[0] == 'p' && c[0] == 'f';
  }

  /** With pre-capture on, the segment, the pre-capture clip and the final movie are three different files, whatever the directories. */
  lemma SessionFilesDistinct(config: Config, stamp: string)
    requires config.recordPrecapture
    ensures var n := NamesFor(config, stamp);
      n.movie != n.final && n.movie != n.precapture.path && n.final != n.precapture.path
  {
    var pt, pm := DirPrefix(config.tmpDir), DirPrefix(config.movieDir);
    var a, b, c := "movie_" + stamp + ".mp4", "precapture_movie_" + stamp + ".mp4", "final_movie_" + stamp + ".mp4";
    assert a[0] == 'm' && b[0] == 'p' && c[0] == 'f';
    assert NamesFor(config, stamp) == SessionNames(pt + a, PrecaptureFile(pt + b), pm + c);
    SegmentIsNotFinal(pt, pm, stamp);
    PrecaptureIsNotFinal(pt, pm, stamp);
  }

  lemma SegmentIsNotFinal(pt: string, pm: string, stamp: string)
    requires pt == [] || pt[|pt| - 1] == '/'
    ensures pt + ("movie_" + stamp + ".mp4") != pm + ("final_movie_" + stamp + ".mp4")
  {
    var a, c := "movie_" + stamp + ".mp4", "final_movie_" + stamp + ".mp4";
    if pt + a == pm + c {
      assert c[5] == '_';
      SeparatorInside(pm, c, pt, a);
    }
  }

  lemma PrecaptureIsNotFinal(pt: string, pm: string, stamp: string)
    requires pm == [] || pm[|pm| - 1] == '/'
    ensures pt + ("precapture_movie_" + stamp + ".mp4") != pm + ("final_movie_" + stamp + ".mp4")
  {
    var b, c := "precapture_movie_" + stamp + ".mp4", "final_movie_" + stamp + ".mp4";
    if pm + c == pt + b {
      assert b[4] == 'a';
      SeparatorInside(pt, b, pm, c);
    }
  }

  /** If `p + x == q + y` and the longer prefix `q` ends in a separator, that separator sits inside `x`. */
  lemma SeparatorInside(p: string, x: string, q: string, y: string)
    requires p + x == q + y
    requires |p| < |q| && q[|q| - 1] == '/'
    ensures |q| - 1 - |p| < |x| && x[|q| - 1 - |p|] == '/'
  {
    assert (p + x)[|q| - 1] == (q + y)[|q| - 1];
  }

  /** Sessions started at different timestamps write different segment and final files. */
  lemma NamesInjective(config: Config, s1: string, s2: string)
    requires s1 != s2
    ensures NamesFor(config, s1).movie != NamesFor(config, s2).movie
    ensures NamesFor(config, s1).final != NamesFor(config, s2).final
  {
    var dm := if config.recordPrecapture then config.tmpDir else config.movieDir;
    var pm, pf := DirPrefix(dm), DirPrefix(config.movieDir);
    var fm := if config.recordPrecapture then "final_movie_" else "movie_";
    RelativeNamesDiffer(pm, "movie_", s1, s2);
    RelativeNamesDiffer(pf, fm, s1, s2);
  }

  lemma RelativeNamesDiffer(p: string, head: string, s1: string, s2: string)
    ensures p + (head + s1 + ".mp4") == p + (head + s2 + ".mp4") ==> s1 == s2
  {
    var x, y := p + (head + s1 + ".mp4"), p + (head + s2 + ".mp4");
    if x == y {
      assert |s1| == |s2|;
      forall k | 0 <= k < |s1| ensures s1[k] == s2[k] {
        assert x[|p| + |head| + k] == s1[k];
        assert y[|p| + |head| + k] == s2[k];
      }
    }
  }

  /** Where `take_picture` writes its picture. */
  function PicturePath(config: Config, stamp: string): string {
    PathJoin(config.pictureDir, "picture_" + stamp + ".jpg")
  }

  // ------------------------------------------------------- ring buffer

  /** The last `n` elements of `s`, or all of them when there are fewer. */
  function LastN<T>(s: seq<T>, n: nat): (r: seq<T>)
    ensures |r| == if |s| <= n then |s| else n
    ensures r == s[|s| - |r|..]
  {
    if |s| <= n then s else s[|s| - n..]
  }

  /** The frame buffer after one frame: append, then drop the oldest frame if the buffer is longer than `capacity`. */
  function Pushed<T>(buffer: seq<T>, frame: T, capacity: nat): (r: seq<T>)
    ensures capacity > 0 ==> |r| > 0 && r[|r| - 1] == frame
    ensures |buffer| <= capacity ==> |r| <= capacity
  {
    var b := buffer + [frame];
    if |b| > capacity then b[1..] else b
  }

  /** A buffer within capacity stays within it, and a push keeps the last `capacity` frames of the buffer and the new frame. */
  lemma PushedWindow<T>(buffer: seq<T>, frame: T, capacity: nat)
    requires |buffer| <= capacity
    ensures Pushed(buffer, frame, capacity) == LastN(buffer + [frame], capacity)
    ensures |Pushed(buffer, frame, capacity)| <= capacity
  {
  }

  /** Keeping the last `n` before a push loses nothing the push keeps. */
  lemma LastNPush<T>(s: seq<T>, x: T, n: nat)
    ensures LastN(LastN(s, n) + [x], n) == LastN(s + [x], n)
  {
    var l := LastN(s, n);
    if |s| > n {
      assert (s + [x])[|s| + 1 - n..] == (l + [x])[|l| + 1 - n..];
    }
  }

  /** The buffer after pushing `frames` one by one. */
  function Buffered<T>(buffer: seq<T>, frames: seq<T>, capacity: nat): seq<T> {
    if frames == [] then buffer
    else Pushed(Buffered(buffer, frames[..|frames| - 1], capacity), frames[|frames| - 1], capacity)
  }

  /** A buffer that starts within capacity holds, after any run of pushes, the last `capacity` frames of everything seen. */
  lemma {:induction false} BufferedWindow<T>(buffer: seq<T>, frames: seq<T>, capacity: nat)
    requires |buffer| <= capacity
    ensures Buffered(buffer, frames, capacity) == LastN(buffer + frames, capacity)
  {
    if frames != [] {
      var init, last := frames[..|frames| - 1], frames[|frames| - 1];
      assert frames == init + [last];
      BufferedWindow(buffer, init, capacity);
      WindowPush(buffer + init, Buffered(buffer, init, capacity), last, capacity);
      AppendAssoc(buffer, init, [last]);
    }
  }

  lemma WindowPush<T>(seen: seq<T>, w: seq<T>, last: T, capacity: nat)
    requires w == LastN(seen, capacity)
    ensures Pushed(w, last, capacity) == LastN(seen + [last], capacity)
  {
    PushedWindow(w, last, capacity);
    LastNPush(seen, last, capacity);
  }

  // --------------------------------------------------------- debounce

  /** The number of motion frames at the end of `h`: the longest final run of `true`. */
  function TrailingMotion(h: seq<bool>): (n: nat)
    ensures n <= |h|
    ensures forall i :: |h| - n <= i < |h| ==> h[i]
    ensures n < |h| ==> !h[|h| - 1 - n]
  {
    if h == [] || !h[|h| - 1] then 0 else TrailingMotion(h[..|h| - 1]) + 1
  }

  /** The debounce counter's update: one more after a motion frame, zero after an empty one. */
  lemma {:induction false} TrailingMotionStep(h: seq<bool>, m: bool)
    ensures TrailingMotion(h + [m]) == if m then TrailingMotion(h) + 1 else 0
  {
    assert (h + [m])[..|h|] == h;
  }

  // ------------------------------------------------- pre-capture clip

  /** `written` holds each frame of `frames` `k` times in a row, in order. */
  ghost predicate RepeatsEach(written: seq<Frame>, frames: seq<Frame>, k: nat) {
    && |written| == k * |frames|
    && (k > 0 ==> forall i :: 0 <= i < |written| ==> written[i] == frames[i / k])
  }

  // ------------------------------------------------------- trace counts

  /** How many times hook `h` appears in trace `t`. */
  ghost function Hooks(t: seq<Action>, h: HookName): nat {
    if t == [] then 0
    else Hooks(t[..|t| - 1], h) + (if t[|t| - 1].RunHook? && t[|t| - 1].hook == h then 1 else 0)
  }

  /** A trace in which hook `h` never runs counts zero runs of it. */
  lemma {:induction false} HooksAbsent(t: seq<Action>, h: HookName)
    requires forall i :: 0 <= i < |t| ==> !(t[i].RunHook? && t[i].hook == h)
    ensures Hooks(t, h) == 0
  {
    if t != [] {
      HooksAbsent(t[..|t| - 1], h);
    }
  }

  /** Hook counts add up over concatenated traces. */
  lemma {:induction false} HooksAppend(a: seq<Action>, b: seq<Action>, h: HookName)
    ensures Hooks(a + b, h) == Hooks(a, h) + Hooks(b, h)
    decreases |b|
  {
    if b != [] {
      var n := |b| - 1;
      assert (a + b)[..|a| + n] == a + b[..n];
      assert (a + b)[|a| + n] == b[n];
      var last := if b[n].RunHook? && b[n].hook == h then 1 else 0;
      assert Hooks(a + b, h) == Hooks(a + b[..n], h) + last;
      assert Hooks(b, h) == Hooks(b[..n], h) + last;
      HooksAppend(a, b[..n], h);
    } else {
      assert a + b == a;
    }
  }

  // -------------------------------------------------- post-processing

  lemma AppendAssoc<T>(a: seq<T>, b: seq<T>, c: seq<T>)
    ensures a + b + c == a + (b + c)
  {
  }

  /** Python's truthiness of `is_precapture_recorded.get(name)`: the name is a path whose entry is set to true. */
  predicate Marked(table: map<string, bool>, name: PrecaptureName) {
    name.PrecaptureFile? && name.path in table && table[name.path]
  }

  /**
    Every entry set to true in `earlier` is still set to true in `later`: the
    completion table only ever gains marks.
   */
  predicate MarksKept(earlier: map<string, bool>, later: map<string, bool>) {
    forall q :: q in earlier && earlier[q] ==> q in later && later[q]
  }

  /** Some poll among the first `polls` finds the pre-capture clip marked complete; `tableAt(k)` is the table as the k-th poll reads it. */
  ghost predicate MarkedWithin(tableAt: nat -> map<string, bool>, name: PrecaptureName, polls: nat) {
    exists k :: 0 <= k < polls && Marked(tableAt(k), name)
  }

  /** One line of the list file handed to the concatenation tool. */
  function ConcatListLine(path: string): string {
    "file '" + path + "'\n"
  }

  /**
    The file `on_movie_end_action` hands to the movie-end hook, as written: with
    pre-capture on, the segment when concatenation reported success and the
    final name otherwise; with pre-capture off, the final name.
   */
  function MovieEndFilename(recordPrecapture: bool, concatSuccess: bool, movie: string, final: string): (name: string)
    ensures name == movie || name == final
    ensures name == movie <== recordPrecapture && concatSuccess
    ensures name == final <== !(recordPrecapture && concatSuccess)
  {
    if recordPrecapture && concatSuccess then movie else final
  }

  /**
    As written, when the pre-capture clip never completes, concatenation is
    skipped and reports failure, and the hook is handed the final movie name:
    a file distinct from the segment that nothing has written.
   */
  lemma TimeoutNamesUnwrittenFinal(config: Config, stamp: string)
    requires config.recordPrecapture
    ensures var n := NamesFor(config, stamp);
      var name := MovieEndFilename(config.recordPrecapture, false, n.movie, n.final);
      name == n.final && name != n.movie
  {
    SessionFilesDistinct(config, stamp);
  }

  /**
    The intended choice: when no concatenation ran (pre-capture off, or the
    clip never completed), the segment itself is the final artifact; when the
    tool ran, its reported status decides as in `MovieEndFilename`.
   */
  function IntendedMovieEndFilename(recordPrecapture: bool, concatRan: bool, concatSuccess: bool,
                                    movie: string, final: string): (name: string)
    ensures name == movie || name == final
  {
    if recordPrecapture && !concatRan then movie
    else MovieEndFilename(recordPrecapture, concatSuccess, movie, final)
  }

  /** With the intended choice, the hook names the concatenated output only if the concatenation tool ran; otherwise it names the segment. */
  lemma IntendedNamesOnlyWrittenFiles(config: Config, stamp: string, ran: bool, success: bool)
    ensures var n := NamesFor(config, stamp);
      var name := IntendedMovieEndFilename(config.recordPrecapture, ran, success, n.movie, n.final);
      && (config.recordPrecapture ==> (name == n.final <==> ran && !success))
      && (!ran ==> name == n.movie)
  {
    if config.recordPrecapture {
      SessionFilesDistinct(config, stamp);
    }
  }
}
