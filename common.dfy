/**
 * Vocabulary shared by the demo programs: the interaction events a viewer
 * window delivers, the key codes the programs compare against, exit codes,
 * and the scanning of hand-written `argv` parsers.
 */
module Common {

  datatype Option<T> = None | Some(value: T)

  /** Process exit status: EXIT_SUCCESS or EXIT_FAILURE. */
  datatype ExitCode = Success | Failure

  datatype MouseButton = LeftButton | MiddleButton | RightButton | OtherButton

  /**
   * One interaction reported by a viewer window: a key press (the raw key
   * code, characters by their code point), a button press at a pixel
   * position, the window being closed, or anything else (key releases,
   * mouse moves, "no action").
   */
  datatype Event =
    | Key(code: int)
    | Button(button: MouseButton, x: int, y: int)
    | Closed
    | Other

  // Codes of the navigation keys as the viewer reports them (X11 key symbols).
  const LeftKey: int := 65361
  const UpKey: int := 65362
  const RightKey: int := 65363
  const DownKey: int := 65364
  const PageUpKey: int := 65365
  const PageDownKey: int := 65366

  predicate IsLeftClick(e: Event) {
    e.Button? && e.button == LeftButton
  }

  /**
   * The number of events a `do { ... wait ... } while (action != Closed)`
   * loop consumes from `events`: everything up to and including the first
   * `Closed`, or all of them when the window is never closed.
   */
  function Served(events: seq<Event>): (n: nat)
    ensures n <= |events|
    ensures forall j :: 0 <= j < n - 1 ==> events[j] != Closed
    ensures Closed in events <==> 0 < n && events[n - 1] == Closed
    ensures Closed !in events ==> n == |events|
  {
    if events == [] then 0
    else if events[0] == Closed then 1
    else 1 + Served(events[1..])
  }

  /** `*argv[i] == '-'`: the argument starts with a dash. */
  predicate IsDashArg(a: string) {
    |a| > 0 && a[0] == '-'
  }

  /** `argv[i][1]`: the character after the first one, the terminating NUL for a one-character argument. */
  function SecondChar(a: string): char
    requires |a| > 0
  {
    if |a| >= 2 then a[1] else '\0'
  }

  /**
   * The file name a hand-written parser settles on: the last argument that
   * does not start with a dash, or the empty string when there is none.
   */
  function LastFilename(args: seq<string>): (f: string)
    decreases |args|
  {
    if args == [] then ""
    else if !IsDashArg(args[|args| - 1]) then args[|args| - 1]
    else LastFilename(args[..|args| - 1])
  }

  /**
   * Index of the last argument that does not start with a dash, or -1 when
   * every argument is a dash option.
   */
  function LastPlainIndex(args: seq<string>): (k: int)
    ensures -1 <= k < |args|
    ensures 0 <= k ==> !IsDashArg(args[k])
    ensures forall m :: k < m < |args| ==> IsDashArg(args[m])
    decreases |args|
  {
    if args == [] then -1
    else if !IsDashArg(args[|args| - 1]) then |args| - 1
    else LastPlainIndex(args[..|args| - 1])
  }

  /** The parsed file name is the argument at LastPlainIndex, or empty when there is none. */
  lemma {:induction false} LastFilenameIsLastPlain(args: seq<string>)
    ensures var k := LastPlainIndex(args);
            LastFilename(args) == if k < 0 then "" else args[k]
    decreases |args|
  {
    if args != [] && IsDashArg(args[|args| - 1]) {
      LastFilenameIsLastPlain(args[..|args| - 1]);
    }
  }

  /**
   * How many reads of a short-circuit chain (`ok = a.read() && b.read()`, or
   * `write = write || !read(...)` repeated) take place and succeed: the reads
   * before the first failure. `oks[j]` says whether read `j` would succeed.
   */
  function ReadsBeforeFailure(oks: seq<bool>): (n: nat)
    ensures n <= |oks|
    ensures forall j :: 0 <= j < n ==> oks[j]
    ensures n < |oks| ==> !oks[n]
  {
    if oks == [] || !oks[0] then 0 else 1 + ReadsBeforeFailure(oks[1..])
  }
}
