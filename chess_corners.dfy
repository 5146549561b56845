/**
 * The chess-corner detector demo (Proyecto-Final/Esquinamiento/
 * chessCorners.cpp): parse the command line, read the detector's
 * configuration file `chess.dat` (rewriting it when it is missing or
 * incomplete), then detect corners in one image file. The model is the
 * build without camera support, in which asking for the camera fails.
 */
module ChessCorners {
  import opened Common

  // ---------------------------------------------------------------------
  // Command line
  // ---------------------------------------------------------------------

  /** `-h...` or exactly `--help`. */
  predicate IsHelp(a: string) {
    IsDashArg(a) && (SecondChar(a) == 'h' || (SecondChar(a) == '-' && a == "--help"))
  }

  /** `-c...`: ask for camera input. */
  predicate IsCamera(a: string) {
    IsDashArg(a) && SecondChar(a) == 'c'
  }

  predicate HasHelp(args: seq<string>) {
    exists k :: 1 <= k < |args| && IsHelp(args[k])
  }

  predicate AsksCamera(args: seq<string>) {
    exists k :: 1 <= k < |args| && IsCamera(args[k])
  }

  /** What `parseArgs` leaves behind: it exits for help, or yields the file name and the camera flag. */
  datatype Parsed = ShowHelp | Parsed(filename: string, camera: bool)

  /**
   * `parseArgs`: `args[0]` is the program name. The first help argument
   * ends the program successfully; `-c...` sets the camera flag; other dash
   * arguments (including other `--...` ones) are ignored; every other
   * argument replaces the file name.
   */
  method ParseArgs(args: seq<string>) returns (r: Parsed)
    requires 1 <= |args|
    ensures r.ShowHelp? <==> HasHelp(args)
    ensures r.Parsed? ==> r.filename == LastFilename(args[1..])
    ensures r.Parsed? ==> (r.camera <==> AsksCamera(args))
  {
    var camera := false;
    var filename := "";
    var i := 1;
    while i < |args|
      invariant 1 <= i <= |args|
      invariant filename == LastFilename(args[1..i])
      invariant camera <==> exists k :: 1 <= k < i && IsCamera(args[k])
      invariant forall k :: 1 <= k < i ==> !IsHelp(args[k])
    {
      assert args[1..i + 1][..i - 1] == args[1..i];
      var a := args[i];
      if IsDashArg(a) {
        var option := SecondChar(a);
        if option == 'h' {
          // usage
          return ShowHelp;
        } else if option == 'c' {
          camera := true;
        } else if option == '-' {
          if a == "--help" {
            // usage
            return ShowHelp;
          }
        }
      } else {
        filename := a;
      }
      i := i + 1;
    }
    assert args[1..i] == args[1..];
    return Parsed(filename, camera);
  }

  // ---------------------------------------------------------------------
  // Configuration file
  // ---------------------------------------------------------------------

  /** A parameter block of a library object, in the form it is stored in. */
  type Block = string

  /** The detector's configuration: the corner-detector and the local-extremes parameters. */
  datatype Config = Config(cornerness: Block, extremes: Block)

  /** An openable `chess.dat`, as the two reads in their order see it (None: that read fails). */
  datatype ConfigFile = ConfigFile(cornerness: Option<Block>, extremes: Option<Block>)

  function Reads(f: ConfigFile): seq<bool> {
    [f.cornerness.Some?, f.extremes.Some?]
  }

  /** The number of reads that succeed before the first failure; 0 for a file that cannot be opened. */
  function Successful(file: Option<ConfigFile>): (n: nat)
    ensures n <= 2
  {
    match file
    case None => 0
    case Some(f) => ReadsBeforeFailure(Reads(f))
  }

  /** The configuration in force after reading: what was read before the first failure, defaults after it. */
  function Loaded(file: Option<ConfigFile>, d: Config): (c: Config)
    ensures file.None? ==> c == d
    ensures c.cornerness == d.cornerness || (file.Some? && file.value.cornerness == Some(c.cornerness))
    ensures c.extremes == d.extremes || (file.Some? && file.value.extremes == Some(c.extremes))
    ensures file.Some? && file.value.cornerness.Some? && file.value.extremes.Some? ==>
              c == Config(file.value.cornerness.value, file.value.extremes.value)
  {
    match file
    case None => d
    case Some(f) =>
      var oks := Reads(f);
      var n := ReadsBeforeFailure(oks);
      assert 0 < n ==> oks[0];
      assert 1 < n ==> oks[1];
      Config(
        if 0 < n then f.cornerness.value else d.cornerness,
        if 1 < n then f.extremes.value else d.extremes)
  }

  /** The file is rewritten when it cannot be opened or either read fails. */
  predicate NeedsRewrite(file: Option<ConfigFile>) {
    Successful(file) < 2
  }

  /** What the rewrite stores: both blocks currently in force. */
  function Saved(c: Config): ConfigFile {
    ConfigFile(Some(c.cornerness), Some(c.extremes))
  }

  /** The rewrite happens exactly when the file is missing or one of the two reads fails, and the second read never runs after the first fails. */
  lemma RewriteIffSomeReadFails(file: Option<ConfigFile>, d: Config)
    ensures NeedsRewrite(file) <==> file.None? || file.value.cornerness.None? || file.value.extremes.None?
    ensures file.Some? && file.value.cornerness.None? ==> Loaded(file, d) == d
  {
    if file.Some? {
      TwoReads(Reads(file.value));
    }
  }

  /** For the two reads, the count of successful ones is fixed by the first failure. */
  lemma TwoReads(oks: seq<bool>)
    requires |oks| == 2
    ensures ReadsBeforeFailure(oks) == if !oks[0] then 0 else if !oks[1] then 1 else 2
  {
    var n := ReadsBeforeFailure(oks);
    assert n < 2 ==> !oks[n];
  }

  /** A rewritten file reads back completely, gives back what was written, and is not rewritten again. */
  lemma RewriteIsStable(c: Config, d: Config)
    ensures Loaded(Some(Saved(c)), d) == c
    ensures !NeedsRewrite(Some(Saved(c)))
  {
    var oks := Reads(Saved(c));
    assert oks[1..][1..] == [];
    assert ReadsBeforeFailure(oks) == 2;
  }

  /**
   * Reading `chess.dat`: the corner-detector block first, the
   * local-extremes block only when that succeeded.
   */
  method ReadConfig(file: Option<ConfigFile>, d: Config) returns (c: Config, write: bool)
    ensures c == Loaded(file, d)
    ensures write == NeedsRewrite(file)
  {
    c := d;
    write := true;
    if file.Some? {
      var f := file.value;
      var ok := f.cornerness.Some?;
      if ok {
        c := c.(cornerness := f.cornerness.value);
        ok := f.extremes.Some?;
        if ok {
          c := c.(extremes := f.extremes.value);
        }
      }
      write := !ok;
      TwoReads(Reads(f));
    }
  }

  // ---------------------------------------------------------------------
  // The program
  // ---------------------------------------------------------------------

  /** How a run ends. */
  datatype Ending =
    | Help          // usage requested
    | Usage         // neither camera nor file: usage, yet success
    | NoCamera      // camera requested in a build without camera support
    | LoadFailed    // the image file could not be read
    | Shown         // corners detected, shown, and Enter pressed

  function ExitOf(e: Ending): ExitCode {
    match e
    case Help => Success
    case Usage => Success
    case NoCamera => Failure
    case LoadFailed => Failure
    case Shown => Success
  }

  /**
   * `main`: after parsing, the configuration is read and, when needed,
   * rewritten, and only then is the missing input noticed.
   */
  method Run(args: seq<string>, canLoad: string -> bool, file: Option<ConfigFile>, d: Config)
    returns (ending: Ending, exit: ExitCode, rewritten: Option<ConfigFile>)
    requires 1 <= |args|
    ensures exit == ExitOf(ending)
    ensures ending == Help <==> HasHelp(args)
    ensures ending == Help ==> rewritten == None
    ensures ending != Help ==> rewritten == (if NeedsRewrite(file) then Some(Saved(Loaded(file, d))) else None)
    ensures ending == Usage <==> !HasHelp(args) && !AsksCamera(args) && LastFilename(args[1..]) == ""
    ensures ending == NoCamera <==> !HasHelp(args) && AsksCamera(args)
    ensures ending == LoadFailed <==>
              !HasHelp(args) && !AsksCamera(args) && LastFilename(args[1..]) != "" && !canLoad(LastFilename(args[1..]))
    ensures exit == Failure <==> ending == NoCamera || ending == LoadFailed
  {
    rewritten := None;
    var parsed := ParseArgs(args);
    if parsed.ShowHelp? {
      return Help, Success, rewritten;
    }
    var c, write := ReadConfig(file, d);
    if write {
      rewritten := Some(Saved(c));
    }
    if !parsed.camera && parsed.filename == "" {
      // usage
      return Usage, Success, rewritten;
    }
    if parsed.camera {
      // "No camera support found"
      return NoCamera, Failure, rewritten;
    }
    if !canLoad(parsed.filename) {
      // the loader's status message
      return LoadFailed, Failure, rewritten;
    }
    return Shown, Success, rewritten;
  }
}
