/**
 * The mean-shift tracker demo (Proyecto-Final/meanShiftTracker/
 * meanShiftTracker.cpp): parse the command line, load one image, read the
 * configuration file `meanShiftTracker.dat` (rewriting it when it is missing
 * or incomplete), then animate the image by rotating it a little more every
 * frame. A left click starts tracking a 33x33 window centred on the click;
 * from then on every frame moves the window with the tracker.
 *
 * The rotation and projection of the image, the tracker itself and the
 * drawing are collaborators: the model keeps the rotation angle and passes
 * the tracker in as a function of the frame's angle and the window.
 */
module MeanShiftTracker {
  import opened Common

  // ---------------------------------------------------------------------
  // Command line
  // ---------------------------------------------------------------------

  /** `-h...`: a dash argument whose second character is 'h'. */
  predicate IsHelp(a: string) {
    IsDashArg(a) && SecondChar(a) == 'h'
  }

  predicate HasHelp(args: seq<string>) {
    exists k :: 1 <= k < |args| && IsHelp(args[k])
  }

  /** What `parseArgs` leaves behind: it exits for help, or yields a file name. */
  datatype Parsed = ShowHelp | Parsed(filename: string)

  /**
   * `parseArgs`: `args[0]` is the program name. The first `-h...` argument
   * ends the program successfully; every other dash argument is ignored;
   * every other argument replaces the file name.
   */
  method ParseArgs(args: seq<string>) returns (r: Parsed)
    requires 1 <= |args|
    ensures r.ShowHelp? <==> HasHelp(args)
    ensures r.Parsed? ==> r.filename == LastFilename(args[1..])
  {
    var filename := "";
    var i := 1;
    while i < |args|
      invariant 1 <= i <= |args|
      invariant filename == LastFilename(args[1..i])
      invariant forall k :: 1 <= k < i ==> !IsHelp(args[k])
    {
      assert args[1..i + 1][..i - 1] == args[1..i];
      var a := args[i];
      if IsDashArg(a) {
        if SecondChar(a) == 'h' {
          // usage
          return ShowHelp;
        }
      } else {
        filename := a;
      }
      i := i + 1;
    }
    assert args[1..i] == args[1..];
    return Parsed(filename);
  }

  // ---------------------------------------------------------------------
  // Configuration file
  // ---------------------------------------------------------------------

  /** A parameter block of a library object, in the form it is stored in. */
  type Block = string

  /** The configured values: the transform and tracker parameter blocks, then three numbers. */
  datatype Config = Config(transform: Block, tracker: Block, maxPan: real, angleStep: real, numTurns: int)

  /** The built-in values used when the file does not provide them. */
  function Defaults(transform: Block, tracker: Block): (c: Config)
  {
    Config(transform, tracker, 45.0, 5.0, 10)
  }

  /**
   * An openable configuration file, as the five reads in their order see
   * it: each is the value that read would produce, or None when it fails.
   */
  datatype ConfigFile = ConfigFile(
    transform: Option<Block>, tracker: Option<Block>,
    maxPan: Option<real>, angleStep: Option<real>, numTurns: Option<int>)

  function Reads(f: ConfigFile): seq<bool> {
    [f.transform.Some?, f.tracker.Some?, f.maxPan.Some?, f.angleStep.Some?, f.numTurns.Some?]
  }

  /** The number of reads that succeed before the first one that fails; 0 for a file that cannot be opened. */
  function Successful(file: Option<ConfigFile>): (n: nat)
    ensures n <= 5
  {
    match file
    case None => 0
    case Some(f) => ReadsBeforeFailure(Reads(f))
  }

  /** The configuration in force after reading: the values read before the first failure, defaults after it. */
  function Loaded(file: Option<ConfigFile>, d: Config): (c: Config)
    ensures file.None? ==> c == d
    ensures c.transform == d.transform || (file.Some? && file.value.transform == Some(c.transform))
    ensures c.tracker == d.tracker || (file.Some? && file.value.tracker == Some(c.tracker))
    ensures c.maxPan == d.maxPan || (file.Some? && file.value.maxPan == Some(c.maxPan))
    ensures c.angleStep == d.angleStep || (file.Some? && file.value.angleStep == Some(c.angleStep))
    ensures c.numTurns == d.numTurns || (file.Some? && file.value.numTurns == Some(c.numTurns))
    ensures file.Some? && file.value.transform.Some? && file.value.tracker.Some? && file.value.maxPan.Some? &&
            file.value.angleStep.Some? && file.value.numTurns.Some? ==>
              c == Config(file.value.transform.value, file.value.tracker.value,
                          file.value.maxPan.value, file.value.angleStep.value, file.value.numTurns.value)
  {
    match file
    case None => d
    case Some(f) =>
      var oks := Reads(f);
      var n := ReadsBeforeFailure(oks);
      assert 0 < n ==> oks[0];
      assert 1 < n ==> oks[1];
      assert 2 < n ==> oks[2];
      assert 3 < n ==> oks[3];
      assert 4 < n ==> oks[4];
      Config(
        if 0 < n then f.transform.value else d.transform,
        if 1 < n then f.tracker.value else d.tracker,
        if 2 < n then f.maxPan.value else d.maxPan,
        if 3 < n then f.angleStep.value else d.angleStep,
        if 4 < n then f.numTurns.value else d.numTurns)
  }

  /** The file is rewritten when it cannot be opened or some read fails. */
  predicate NeedsRewrite(file: Option<ConfigFile>) {
    Successful(file) < 5
  }

  /** What the rewrite stores: every value currently in force. */
  function Saved(c: Config): ConfigFile {
    ConfigFile(Some(c.transform), Some(c.tracker), Some(c.maxPan), Some(c.angleStep), Some(c.numTurns))
  }

  /** The rewrite happens exactly when the file is missing or one of the five fields cannot be read. */
  lemma RewriteIffSomeReadFails(file: Option<ConfigFile>)
    ensures NeedsRewrite(file) <==>
              file.None? || file.value.transform.None? || file.value.tracker.None? ||
              file.value.maxPan.None? || file.value.angleStep.None? || file.value.numTurns.None?
  {
    if file.Some? {
      var oks := Reads(file.value);
      if ReadsBeforeFailure(oks) == 5 {
        assert oks[0] && oks[1] && oks[2] && oks[3] && oks[4];
      }
    }
  }

  /** Reads short-circuit: after a failing read the later fields keep their defaults whatever the file holds. */
  lemma LaterFieldsKeepDefaults(f: ConfigFile, d: Config)
    ensures f.transform.None? ==> Loaded(Some(f), d) == d
    ensures f.tracker.None? ==> Loaded(Some(f), d).(transform := d.transform) == d
    ensures f.maxPan.None? ==>
              Loaded(Some(f), d).maxPan == d.maxPan && Loaded(Some(f), d).angleStep == d.angleStep &&
              Loaded(Some(f), d).numTurns == d.numTurns
    ensures f.angleStep.None? ==>
              Loaded(Some(f), d).angleStep == d.angleStep && Loaded(Some(f), d).numTurns == d.numTurns
    ensures f.numTurns.None? ==> Loaded(Some(f), d).numTurns == d.numTurns
  {
    var oks := Reads(f);
    var n := ReadsBeforeFailure(oks);
    if f.transform.None? { assert !oks[0]; }
    if f.tracker.None? { assert !oks[1]; }
    if f.maxPan.None? { assert !oks[2]; }
    if f.angleStep.None? { assert !oks[3]; }
    if f.numTurns.None? { assert !oks[4]; }
  }

  /** A rewritten file reads back completely, gives back the values it was written from, and is not rewritten again. */
  lemma RewriteIsStable(c: Config, d: Config)
    ensures Loaded(Some(Saved(c)), d) == c
    ensures !NeedsRewrite(Some(Saved(c)))
  {
    var oks := Reads(Saved(c));
    assert oks[1..][1..][1..][1..][1..] == [];
    assert ReadsBeforeFailure(oks) == 5;
  }

  /**
   * Reading the file: each read runs only while all earlier ones succeeded,
   * and a successful read stores its value. Returns the values in force and
   * whether the file must be rewritten.
   */
  method ReadConfig(file: Option<ConfigFile>, d: Config) returns (c: Config, write: bool)
    ensures c == Loaded(file, d)
    ensures write == NeedsRewrite(file)
  {
    c := d;
    write := true;
    if file.Some? {
      var f := file.value;
      ghost var oks := Reads(f);
      write := f.transform.None?;
      if !write {
        c := c.(transform := f.transform.value);
        write := f.tracker.None?;
      }
      if !write {
        c := c.(tracker := f.tracker.value);
        write := f.maxPan.None?;
      }
      if !write {
        c := c.(maxPan := f.maxPan.value);
        write := f.angleStep.None?;
      }
      if !write {
        c := c.(angleStep := f.angleStep.value);
        write := f.numTurns.None?;
      }
      if !write {
        c := c.(numTurns := f.numTurns.value);
      }
      FiveReads(oks);
    }
  }

  /** For the five reads, the count of successful ones is fixed by the first failure. */
  lemma FiveReads(oks: seq<bool>)
    requires |oks| == 5
    ensures ReadsBeforeFailure(oks) ==
              if !oks[0] then 0 else if !oks[1] then 1 else if !oks[2] then 2
              else if !oks[3] then 3 else if !oks[4] then 4 else 5
  {
    var n := ReadsBeforeFailure(oks);
    assert n < 5 ==> !oks[n];
  }

  // ---------------------------------------------------------------------
  // The frame loop
  // ---------------------------------------------------------------------

  /** A rectangle by its inclusive corner coordinates. */
  datatype Window = Window(left: int, top: int, right: int, bottom: int)

  /** The 33x33 window centred on a pixel. */
  function Centred(x: int, y: int): (w: Window)
    ensures w.right - w.left + 1 == 33 && w.bottom - w.top + 1 == 33
    ensures w.left + w.right == 2 * x && w.top + w.bottom == 2 * y
  {
    Window(x - 16, y - 16, x + 16, y + 16)
  }

  /** The tracker step: where the window moves on the frame rendered at a given angle. */
  type Follow = (real, Window) -> Window

  /**
   * The angle update at the end of each frame: advance by `step`, and start
   * over at 0 once `numTurns` full turns are reached.
   */
  function NextAngle(angle: real, step: real, numTurns: int): (r: real)
    ensures r == 0.0 || r == angle + step
    ensures angle + step < (numTurns * 360) as real ==> r == angle + step
    ensures 0 < numTurns ==> r < (numTurns * 360) as real
    ensures 0.0 <= angle && 0.0 <= step ==> 0.0 <= r
  {
    var a := angle + step;
    if a >= (numTurns * 360) as real then 0.0 else a
  }

  /** The state the loop carries from frame to frame. */
  datatype Animation = Animation(angle: real, tracking: bool, window: Window)

  function Start(window0: Window): Animation {
    Animation(0.0, false, window0)
  }

  /**
   * One frame, ending with event `e`: the image is rendered at the current
   * angle, the angle advances, a tracking window follows the rendered frame,
   * and a left click re-centres the window and latches tracking on.
   */
  function Step(s: Animation, e: Event, c: Config, follow: Follow): (r: Animation)
    ensures r.tracking <==> s.tracking || IsLeftClick(e)
    ensures !r.tracking ==> r.window == s.window
    ensures r.angle == 0.0 || r.angle == s.angle + c.angleStep
  {
    var a := NextAngle(s.angle, c.angleStep, c.numTurns);
    if IsLeftClick(e) then Animation(a, true, Centred(e.x, e.y))
    else if s.tracking then Animation(a, true, follow(s.angle, s.window))
    else Animation(a, false, s.window)
  }

  function Replay(s: Animation, events: seq<Event>, c: Config, follow: Follow): Animation
    decreases |events|
  {
    if events == [] then s
    else Step(Replay(s, events[..|events| - 1], c, follow), events[|events| - 1], c, follow)
  }

  /** Tracking is on exactly when some frame saw a left click. */
  lemma {:induction false} TrackingIffClicked(window0: Window, events: seq<Event>, c: Config, follow: Follow)
    ensures Replay(Start(window0), events, c, follow).tracking <==>
              exists j :: 0 <= j < |events| && IsLeftClick(events[j])
    decreases |events|
  {
    if events != [] {
      var prefix := events[..|events| - 1];
      TrackingIffClicked(window0, prefix, c, follow);
      if exists j :: 0 <= j < |prefix| && IsLeftClick(prefix[j]) {
        var j :| 0 <= j < |prefix| && IsLeftClick(prefix[j]);
        assert events[j] == prefix[j];
      }
      if exists j :: 0 <= j < |events| && IsLeftClick(events[j]) {
        var j :| 0 <= j < |events| && IsLeftClick(events[j]);
        if j < |prefix| {
          assert prefix[j] == events[j];
        }
      }
    }
  }

  /** Until the first click the window is never touched. */
  lemma {:induction false} IdleWindowUnchanged(window0: Window, events: seq<Event>, c: Config, follow: Follow)
    ensures !Replay(Start(window0), events, c, follow).tracking ==>
              Replay(Start(window0), events, c, follow).window == window0
    decreases |events|
  {
    if events != [] {
      IdleWindowUnchanged(window0, events[..|events| - 1], c, follow);
    }
  }

  /** With a non-negative step and at least one turn, the angle stays within [0, numTurns*360). */
  lemma {:induction false} AngleInRange(window0: Window, events: seq<Event>, c: Config, follow: Follow)
    requires 0.0 <= c.angleStep && 0 < c.numTurns
    ensures var a := Replay(Start(window0), events, c, follow).angle;
            0.0 <= a < (c.numTurns * 360) as real
    decreases |events|
  {
    if events != [] {
      AngleInRange(window0, events[..|events| - 1], c, follow);
    }
  }

  /** A click decides the window of its own frame, whatever the tracker would have done. */
  lemma ClickCentresWindow(s: Animation, x: int, y: int, c: Config, follow: Follow)
    ensures var t := Step(s, Button(LeftButton, x, y), c, follow);
            t.tracking && t.window == Centred(x, y) &&
            t.angle == NextAngle(s.angle, c.angleStep, c.numTurns)
  {
  }

  /**
   * The `do { ... } while (action != Closed)` frame loop, one event per
   * frame. Returns the final state and the number of frames shown.
   */
  method Animate(c: Config, window0: Window, follow: Follow, events: seq<Event>)
    returns (angle: real, tracking: bool, window: Window, consumed: nat)
    ensures consumed == Served(events)
    ensures Animation(angle, tracking, window) == Replay(Start(window0), events[..consumed], c, follow)
    ensures tracking <==> exists j :: 0 <= j < consumed && IsLeftClick(events[j])
    ensures 0.0 <= c.angleStep && 0 < c.numTurns ==> 0.0 <= angle < (c.numTurns * 360) as real
  {
    angle := 0.0;
    tracking := false;
    window := window0;
    consumed := 0;
    var closed := false;
    while !closed && consumed < |events|
      invariant consumed <= |events|
      invariant Animation(angle, tracking, window) == Replay(Start(window0), events[..consumed], c, follow)
      invariant closed ==> 0 < consumed && events[consumed - 1] == Closed
      invariant forall j :: 0 <= j < consumed - 1 ==> events[j] != Closed
      invariant !closed ==> forall j :: 0 <= j < consumed ==> events[j] != Closed
    {
      var shownAngle := angle;
      angle := angle + c.angleStep;
      if angle >= (c.numTurns * 360) as real {
        angle := 0.0;
      }
      if tracking {
        window := follow(shownAngle, window);
      }
      var action := events[consumed];
      if IsLeftClick(action) {
        window := Centred(action.x, action.y);
        tracking := true;
      }
      assert events[..consumed + 1][..consumed] == events[..consumed];
      consumed := consumed + 1;
      closed := action == Closed;
    }
    ServedStopsAtClose(events, consumed);
    ghost var served := events[..consumed];
    TrackingIffClicked(window0, served, c, follow);
    assert forall j :: 0 <= j < consumed ==> served[j] == events[j];
    if 0.0 <= c.angleStep && 0 < c.numTurns {
      AngleInRange(window0, events[..consumed], c, follow);
    }
  }

  /** A loop that stops after the first `Closed`, or at the end, has consumed `Served(events)`. */
  lemma {:induction false} ServedStopsAtClose(events: seq<Event>, n: nat)
    requires n <= |events|
    requires forall j :: 0 <= j < n - 1 ==> events[j] != Closed
    requires (0 < n && events[n - 1] == Closed) || (n == |events| && forall j :: 0 <= j < n ==> events[j] != Closed)
    ensures n == Served(events)
    decreases n
  {
    if 0 < n && events[0] != Closed {
      ServedStopsAtClose(events[1..], n - 1);
    }
  }

  // ---------------------------------------------------------------------
  // The program
  // ---------------------------------------------------------------------

  /** How a run ends: the process exits, or the events run out with the window still open. */
  datatype Outcome = Exited(code: ExitCode) | StillRunning

  /**
   * `main`: help exits successfully, a missing file name or an image that
   * cannot be loaded fail; otherwise the configuration is read (and
   * rewritten when needed) and the frame loop runs until the window is
   * closed, which exits successfully. `transform0` and `tracker0` are the
   * library's default parameter blocks; the numbers default to
   * `Defaults`.
   */
  method Run(args: seq<string>, canLoad: string -> bool, file: Option<ConfigFile>,
             transform0: Block, tracker0: Block, window0: Window, follow: Follow, events: seq<Event>)
    returns (outcome: Outcome, rewritten: Option<ConfigFile>, tracking: bool)
    requires 1 <= |args|
    ensures HasHelp(args) ==> outcome == Exited(Success) && rewritten == None
    ensures !HasHelp(args) && LastFilename(args[1..]) == "" ==> outcome == Exited(Failure) && rewritten == None
    ensures !HasHelp(args) && LastFilename(args[1..]) != "" && !canLoad(LastFilename(args[1..])) ==>
              outcome == Exited(Failure) && rewritten == None
    ensures !HasHelp(args) && LastFilename(args[1..]) != "" && canLoad(LastFilename(args[1..])) ==>
              && rewritten == (if NeedsRewrite(file) then Some(Saved(Loaded(file, Defaults(transform0, tracker0)))) else None)
              && (outcome == Exited(Success) <==> Closed in events)
              && (outcome == StillRunning <==> Closed !in events)
              && (tracking <==> exists j :: 0 <= j < Served(events) && IsLeftClick(events[j]))
    ensures !HasHelp(args) && LastFilename(args[1..]) != "" && canLoad(LastFilename(args[1..])) && file.None? ==>
              rewritten == Some(ConfigFile(Some(transform0), Some(tracker0), Some(45.0), Some(5.0), Some(10)))
  {
    rewritten := None;
    tracking := false;
    var parsed := ParseArgs(args);
    if parsed.ShowHelp? {
      return Exited(Success), rewritten, tracking;
    }
    var imgFile := parsed.filename;
    if imgFile == "" {
      // usage
      return Exited(Failure), rewritten, tracking;
    }
    if !canLoad(imgFile) {
      // "Could not read ..."
      return Exited(Failure), rewritten, tracking;
    }
    var c, write := ReadConfig(file, Defaults(transform0, tracker0));
    if write {
      rewritten := Some(Saved(c));
    }
    var angle, window, consumed;
    angle, tracking, window, consumed := Animate(c, window0, follow, events);
    if Closed in events {
      outcome := Exited(Success);
    } else {
      outcome := StillRunning;
    }
  }
}
