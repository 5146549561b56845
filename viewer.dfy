/**
 * The image viewer (Proyecto-Final/viewer/viewer.cpp, `main`): every
 * command-line argument is a file to show; arrow and page keys move to the
 * next or previous argument with wrap-around, `-c` switches to channel
 * display, `-h` ends, closing the window ends, and a file that cannot be
 * loaded is skipped.
 *
 * The header check, the loaders and the grey conversion are collaborators
 * passed in as functions. The outer loop of the source can run forever
 * (see `Run`), so the model bounds its iterations by `fuel`.
 */
module Viewer {
  import opened Common

  /** Pixel data of one buffer; empty when the buffer is cleared. */
  type Pic = seq<int>

  /** What the header check reports: the format name and its info string. */
  datatype Header = Header(kind: string, info: string)

  /** The collaborators: header check, the three loaders, and the cast of a colour image to a byte channel. */
  datatype Env = Env(
    checkHeader: string -> Option<Header>,
    loadImage: string -> Option<Pic>,
    loadChannel8: string -> Option<Pic>,
    loadChannel: string -> Option<Pic>,
    toChannel8: Pic -> Pic)

  /** The three buffers `img`, `chnl8` and `chnl`. */
  datatype Buffers = Buffers(img: Pic, chnl8: Pic, chnl: Pic)

  /** The buffer a loader filled; a failed load leaves it empty. */
  function PicOf(r: Option<Pic>): Pic {
    if r.Some? then r.value else []
  }

  /** At most one buffer holds data. */
  predicate AtMostOneLoaded(b: Buffers) {
    (b.chnl8 == [] && b.chnl == []) || (b.img == [] && b.chnl == []) || (b.img == [] && b.chnl8 == [])
  }

  /** Result of trying one file: the header check failed (buffers untouched), or a load was attempted. */
  datatype Attempt = NoHeader | Attempted(ok: bool, bufs: Buffers)

  /** The first character of the header's info string, NUL when it is empty. */
  function InfoChar(h: Header): char {
    if |h.info| > 0 then h.info[0] else '\0'
  }

  /**
   * Trying to load a file: an LTI file with info 'b' is read as a byte
   * channel, with 'f' as a float channel, with anything else it fails; any
   * other format is read as a colour image. Every attempt clears the buffers
   * it does not fill.
   */
  function Probe(env: Env, path: string): (r: Attempt)
    ensures r.Attempted? ==> AtMostOneLoaded(r.bufs)
    ensures r.NoHeader? <==> env.checkHeader(path).None?
  {
    match env.checkHeader(path)
    case None => NoHeader
    case Some(h) =>
      if h.kind == "LTI" then
        var c := InfoChar(h);
        if c == 'b' then
          var r := env.loadChannel8(path);
          Attempted(r.Some?, Buffers([], PicOf(r), []))
        else if c == 'f' then
          var r := env.loadChannel(path);
          Attempted(r.Some?, Buffers([], [], PicOf(r)))
        else
          Attempted(false, Buffers([], [], []))
      else
        var r := env.loadImage(path);
        Attempted(r.Some?, Buffers(PicOf(r), [], []))
  }

  predicate LoadSucceeds(env: Env, path: string) {
    Probe(env, path).Attempted? && Probe(env, path).ok
  }

  /** What is put on the screen. */
  datatype Shown = ShowChannel(pic: Pic) | ShowChannel8(pic: Pic) | ShowImage(pic: Pic) | ShowNothing

  /**
   * Display priority: the float channel, else the byte channel, else the
   * image (cast to a byte channel first when `-c` was given).
   */
  function Display(b: Buffers, viewChannel: bool, env: Env): (r: (Shown, Buffers))
    ensures r.0 == ShowNothing <==> b == Buffers([], [], [])
    ensures r.1.img == b.img && r.1.chnl == b.chnl
    ensures r.1.chnl8 != b.chnl8 ==> viewChannel && b.chnl == [] && b.chnl8 == []
  {
    if b.chnl != [] then (ShowChannel(b.chnl), b)
    else if b.chnl8 != [] then (ShowChannel8(b.chnl8), b)
    else if b.img != [] then
      if viewChannel then
        var c8 := env.toChannel8(b.img);
        (ShowChannel8(c8), b.(chnl8 := c8))
      else (ShowImage(b.img), b)
    else (ShowNothing, b)
  }

  /** After a successful load, the picture just loaded is the one shown. */
  lemma LoadedPictureIsShown(env: Env, path: string, viewChannel: bool)
    requires LoadSucceeds(env, path)
    ensures var h := env.checkHeader(path).value;
            var b := Probe(env, path).bufs;
            var shown := Display(b, viewChannel, env).0;
            && (h.kind == "LTI" && InfoChar(h) == 'b' && env.loadChannel8(path).value != [] ==>
                  shown == ShowChannel8(env.loadChannel8(path).value))
            && (h.kind == "LTI" && InfoChar(h) == 'f' && env.loadChannel(path).value != [] ==>
                  shown == ShowChannel(env.loadChannel(path).value))
            && (h.kind != "LTI" && env.loadImage(path).value != [] ==>
                  shown == if viewChannel then ShowChannel8(env.toChannel8(env.loadImage(path).value))
                           else ShowImage(env.loadImage(path).value))
  {
  }

  /** An LTI file whose info is neither 'b' nor 'f' never loads. */
  lemma UnknownLtiContentFails(env: Env, path: string)
    requires env.checkHeader(path).Some? && env.checkHeader(path).value.kind == "LTI"
    requires InfoChar(env.checkHeader(path).value) !in {'b', 'f'}
    ensures !LoadSucceeds(env, path)
    ensures Probe(env, path).bufs == Buffers([], [], [])
  {
  }

  predicate IsNext(code: int) { code == RightKey || code == DownKey || code == PageDownKey }
  predicate IsPrevious(code: int) { code == LeftKey || code == UpKey || code == PageUpKey }

  /** `i++`, wrapping from argc to the first argument. */
  function NextIndex(i: int, argc: int): (r: int)
    ensures 1 <= i < argc ==> 1 <= r < argc
    ensures r == i + 1 || r == 1
  {
    if i + 1 >= argc then 1 else i + 1
  }

  /** `i--`, wrapping from 0 to the last argument. */
  function PreviousIndex(i: int, argc: int): (r: int)
    ensures 1 <= i < argc ==> 1 <= r < argc
    ensures r == i - 1 || r == argc - 1
  {
    if i - 1 < 1 then argc - 1 else i - 1
  }

  /** Navigation stays on the file arguments and the two moves undo each other. */
  lemma NavigationWraps(i: int, argc: int)
    requires 1 <= i < argc
    ensures 1 <= NextIndex(i, argc) < argc && 1 <= PreviousIndex(i, argc) < argc
    ensures PreviousIndex(NextIndex(i, argc), argc) == i
    ensures NextIndex(PreviousIndex(i, argc), argc) == i
    ensures i == argc - 1 ==> NextIndex(i, argc) == 1
    ensures i == 1 ==> PreviousIndex(i, argc) == argc - 1
  {
  }

  /** What one event does while the viewer waits on a shown file. */
  datatype Reaction = Finish | MoveTo(index: int) | KeepWaiting

  function React(i: int, argc: int, e: Event): (r: Reaction)
    ensures r == Finish <==> e == Closed
    ensures r.MoveTo? ==> e.Key? && (r.index == NextIndex(i, argc) || r.index == PreviousIndex(i, argc))
    ensures r.MoveTo? && 1 <= i < argc ==> 1 <= r.index < argc
  {
    if e == Closed then Finish
    else if e.Key? && IsNext(e.code) then MoveTo(NextIndex(i, argc))
    else if e.Key? && IsPrevious(e.code) then MoveTo(PreviousIndex(i, argc))
    else KeepWaiting
  }

  /**
   * The inner loop: wait for events from position `from` until the window
   * is closed or a navigation key is pressed. When the events run out the
   * viewer is still waiting (`KeepWaiting`).
   */
  method Wait(i: int, argc: int, events: seq<Event>, from: nat) returns (r: Reaction, used: nat)
    requires from <= |events|
    ensures from <= used <= |events|
    ensures forall j :: from <= j < used - 1 ==> React(i, argc, events[j]) == KeepWaiting
    ensures r != KeepWaiting ==> from < used && r == React(i, argc, events[used - 1])
    ensures r == KeepWaiting ==> used == |events|
    ensures r == KeepWaiting ==> forall j :: from <= j < |events| ==> React(i, argc, events[j]) == KeepWaiting
  {
    used := from;
    var ok := false;
    r := KeepWaiting;
    while !ok && used < |events|
      invariant from <= used <= |events|
      invariant forall j :: from <= j < used - 1 ==> React(i, argc, events[j]) == KeepWaiting
      invariant !ok ==> forall j :: from <= j < used ==> React(i, argc, events[j]) == KeepWaiting
      invariant !ok <==> r == KeepWaiting
      invariant ok ==> from < used && r == React(i, argc, events[used - 1])
    {
      var action := events[used];
      used := used + 1;
      if action == Closed {
        r, ok := Finish, true;
      } else if action.Key? {
        var k := action.code;
        if k == RightKey || k == DownKey || k == PageDownKey {
          var next := i + 1;
          if next >= argc {
            next := 1;
          }
          r, ok := MoveTo(next), true;
        } else if k == LeftKey || k == UpKey || k == PageUpKey {
          var previous := i - 1;
          if previous < 1 {
            previous := argc - 1;
          }
          r, ok := MoveTo(previous), true;
        }
      }
    }
  }

  /** No argument is one of the options `-c` or `-h`. */
  predicate NoOptions(args: seq<string>) {
    forall k :: 1 <= k < |args| ==> args[k] != "-c" && args[k] != "-h"
  }

  /**
   * Where the cursor comes to rest when it arrives at argument `j`: files
   * that fail to load are skipped, and the last argument is kept whether or
   * not it loads (the source retries it).
   */
  function Land(args: seq<string>, env: Env, j: int): (k: int)
    requires 1 <= j < |args|
    ensures j <= k < |args|
    ensures LoadSucceeds(env, args[k]) || k == |args| - 1
    ensures forall m :: j <= m < k ==> !LoadSucceeds(env, args[m])
    decreases |args| - j
  {
    if j == |args| - 1 || LoadSucceeds(env, args[j]) then j else Land(args, env, j + 1)
  }

  /** The cursor after one event while a file is shown: navigation moves it, then it lands. */
  function Advance(args: seq<string>, env: Env, c: int, e: Event): (k: int)
    requires 1 <= c < |args|
    ensures 1 <= k < |args|
  {
    match React(c, |args|, e)
    case MoveTo(n) => Land(args, env, n)
    case _ => c
  }

  /** The cursor after the given events, for arguments without options. */
  function Cursor(args: seq<string>, env: Env, events: seq<Event>): (k: int)
    requires 2 <= |args|
    ensures 1 <= k < |args|
    decreases |events|
  {
    if events == [] then Land(args, env, 1)
    else Advance(args, env, Cursor(args, env, events[..|events| - 1]), events[|events| - 1])
  }

  /** Events the shown file ignores do not move the cursor. */
  lemma {:induction false} CursorSkips(args: seq<string>, env: Env, events: seq<Event>, lo: int, hi: int)
    requires 2 <= |args| && 0 <= lo <= hi <= |events|
    requires forall j :: lo <= j < hi ==> React(Cursor(args, env, events[..lo]), |args|, events[j]) == KeepWaiting
    ensures Cursor(args, env, events[..hi]) == Cursor(args, env, events[..lo])
    decreases hi - lo
  {
    if lo < hi {
      var c := Cursor(args, env, events[..lo]);
      assert events[..lo + 1][..lo] == events[..lo];
      assert Cursor(args, env, events[..lo + 1]) == c;
      CursorSkips(args, env, events, lo + 1, hi);
    }
  }

  /**
   * After a wait on the shown file `i`: skipped events leave the cursor on
   * `i`, and the event that ends the wait moves it as `Advance` says.
   */
  lemma CursorAfterWait(args: seq<string>, env: Env, events: seq<Event>, i: int, lo: nat, r: Reaction, hi: nat)
    requires 2 <= |args| && 1 <= i < |args| && lo <= hi <= |events|
    requires Cursor(args, env, events[..lo]) == i
    requires forall j :: lo <= j < hi - 1 ==> React(i, |args|, events[j]) == KeepWaiting
    requires r != KeepWaiting ==> lo < hi && r == React(i, |args|, events[hi - 1])
    requires r == KeepWaiting ==> forall j :: lo <= j < hi ==> React(i, |args|, events[j]) == KeepWaiting
    ensures r == KeepWaiting || r == Finish ==> Cursor(args, env, events[..hi]) == i
    ensures r.MoveTo? ==> 1 <= r.index < |args| && Cursor(args, env, events[..hi]) == Land(args, env, r.index)
  {
    if r == KeepWaiting {
      CursorSkips(args, env, events, lo, hi);
    } else {
      CursorSkips(args, env, events, lo, hi - 1);
      assert events[..hi][..hi - 1] == events[..hi - 1];
    }
  }

  /** How a run ends: the program exits, it blocks waiting for events, or the iteration bound is reached. */
  datatype Outcome = Exited(code: ExitCode) | Blocked | OutOfFuel

  /** Argument `k` is a file that does not load: the viewer cannot show it and moves on. */
  predicate StuckOn(args: seq<string>, env: Env, k: int)
    requires 0 <= k < |args|
  {
    args[k] != "-c" && args[k] != "-h" && !LoadSucceeds(env, args[k])
  }

  /** No file argument is an option and none of them loads. */
  predicate NothingLoads(args: seq<string>, env: Env) {
    forall k :: 1 <= k < |args| ==> StuckOn(args, env, k)
  }

  /** One more served event leaves room for one more pass over the arguments. */
  lemma MoreEvents(a: nat, b: nat, n: nat)
    requires a < b
    ensures a * n + n <= b * n
  {
    var k := b - a;
    assert k * n == (k - 1) * n + n;
    assert b * n == a * n + k * n;
  }

  /**
   * `main`: `args[0]` is the program name. Without file arguments it prints
   * the usage and fails. Otherwise it walks the arguments starting at the
   * first, showing each file that loads and waiting for navigation.
   * A file that fails to load is skipped; past the end the program fails
   * when it has a single argument and otherwise retries the last argument,
   * so once it reaches a last file that does not load, the loop never ends
   * (`OutOfFuel`). A close ends the run with success; a run that has not
   * ended has seen no close. Without option arguments the argument shown
   * is the one `Cursor` computes from the events consumed.
   */
  method Run(args: seq<string>, env: Env, events: seq<Event>, fuel: nat)
    returns (outcome: Outcome, i: int, viewChannel: bool, used: nat)
    ensures |args| <= 1 ==> outcome == Exited(Failure)
    ensures used <= |events|
    ensures forall j :: 0 <= j < used - 1 ==> events[j] != Closed
    ensures |args| > 1 && outcome.Exited? && outcome.code == Success ==> 1 <= i <= |args|
    ensures outcome == Blocked || outcome == OutOfFuel ==> 1 <= i < |args|
    ensures outcome == Exited(Failure) ==>
              |args| <= 1 || (|args| == 2 && StuckOn(args, env, 1))
    ensures outcome == Exited(Success) ==>
              (0 < used && events[used - 1] == Closed) ||
              (exists k :: 1 <= k < |args| && (args[k] == "-h" || args[k] == "-c"))
    ensures |args| > 2 && NothingLoads(args, env) ==> outcome == OutOfFuel && used == 0
    ensures |args| == 2 && NothingLoads(args, env) && fuel > 0 ==> outcome == Exited(Failure)
    ensures outcome != Exited(Success) ==> forall j :: 0 <= j < used ==> events[j] != Closed
    ensures outcome == Blocked ==> used == |events| && Closed !in events
    ensures viewChannel ==> exists k :: 1 <= k < |args| && args[k] == "-c"
    ensures |args| > 2 && i == |args| - 1 && StuckOn(args, env, i) ==> outcome == OutOfFuel
    ensures outcome == Blocked ==> LoadSucceeds(env, args[i])
    ensures 2 <= |args| && NoOptions(args) && outcome != Exited(Failure) ==>
              1 <= i < |args| && Land(args, env, i) == Cursor(args, env, events[..used])
    ensures 2 <= |args| && NoOptions(args) && (outcome == Blocked || outcome == Exited(Success)) ==>
              LoadSucceeds(env, args[i]) && i == Cursor(args, env, events[..used])
    ensures outcome == OutOfFuel ==>
              fuel <= used * |args| + i || (|args| > 2 && i == |args| - 1 && !LoadSucceeds(env, args[i]))
    ensures 2 <= |args| && args[1] == "-h" && 0 < fuel ==> outcome == Exited(Success) && used == 0
    ensures 2 <= |args| && args[1] == "-c" && 0 < fuel ==> viewChannel
  {
    viewChannel := false;
    used := 0;
    i := 1;
    var argc := |args|;
    if argc <= 1 {
      // "Provide at least one image file to be displayed."
      return Exited(Failure), i, viewChannel, used;
    }
    var bufs := Buffers([], [], []);
    var theEnd := false;
    var iterations := 0;
    while !theEnd
      invariant 0 <= iterations <= fuel
      invariant used <= |events|
      invariant !theEnd ==> 1 <= i < argc
      invariant theEnd ==> 1 <= i <= argc
      invariant !theEnd ==> forall j :: 0 <= j < used ==> events[j] != Closed
      invariant forall j :: 0 <= j < used - 1 ==> events[j] != Closed
      invariant theEnd ==> (0 < used && events[used - 1] == Closed) ||
                           (exists k :: 1 <= k < argc && (args[k] == "-h" || args[k] == "-c"))
      invariant NothingLoads(args, env) ==> used == 0 && !theEnd
      invariant argc == 2 && NothingLoads(args, env) ==> iterations == 0
      invariant viewChannel ==> exists k :: 1 <= k < argc && args[k] == "-c"
      invariant theEnd && i == argc - 1 ==> !StuckOn(args, env, i)
      invariant NoOptions(args) && !theEnd ==> Land(args, env, i) == Cursor(args, env, events[..used])
      invariant NoOptions(args) && theEnd ==>
                  i < argc && LoadSucceeds(env, args[i]) && i == Cursor(args, env, events[..used])
      invariant !theEnd ==>
                  iterations <= used * argc + i || (argc > 2 && i == argc - 1 && !LoadSucceeds(env, args[i]))
      invariant args[1] == "-h" && 0 < fuel ==> used == 0 && (iterations == 0 || theEnd)
      invariant args[1] == "-c" && 0 < fuel ==> iterations == 0 || viewChannel
      invariant iterations == 0 ==> i == 1 && !theEnd && !viewChannel
      decreases fuel - iterations
    {
      if iterations == fuel {
        return OutOfFuel, i, viewChannel, used;
      }
      iterations := iterations + 1;
      if args[i] == "-c" {
        assert !StuckOn(args, env, i);
        viewChannel := true;
        i := i + 1;
        if i >= argc {
          theEnd := true;
          continue;
        }
      } else if args[i] == "-h" {
        assert !StuckOn(args, env, i);
        // usage
        theEnd := true;
        continue;
      }
      var loadOk := false;
      var attempt := Probe(env, args[i]);
      if attempt.Attempted? {
        loadOk, bufs := attempt.ok, attempt.bufs;
      }
      if loadOk {
        assert !StuckOn(args, env, i);
        var display := Display(bufs, viewChannel, env);
        bufs := display.1;
        var r, u := Wait(i, argc, events, used);
        if NoOptions(args) {
          CursorAfterWait(args, env, events, i, used, r, u);
        }
        if r == KeepWaiting {
          return Blocked, i, viewChannel, u;
        }
        MoreEvents(used, u, argc);
        used := u;
        match r {
          case Finish => theEnd := true;
          case MoveTo(next) => i := next;
        }
      } else {
        // the loader's status message
        i := i + 1;
        if i >= argc {
          if argc == 2 {
            return Exited(Failure), i - 1, viewChannel, used;
          }
          i := argc - 1;
        }
      }
    }
    return Exited(Success), i, viewChannel, used;
  }
}
