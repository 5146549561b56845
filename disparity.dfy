/**
 * The stereo disparity demo (Proyecto-Final/disparity/disparity.cpp): the
 * brute-force sub-pixel line scan `lineDisparity`, the positional-file
 * check of `parse`, and the interaction loop of `apply` that shifts the
 * right image in quarter-pixel steps and selects a line by clicking.
 *
 * The image resampler (a translation by a real number of pixels) is a
 * collaborator passed in as a function; it is only required to keep the
 * shape of the image it shifts.
 */
module Disparity {
  import opened Common

  /** A single-channel image as a sequence of rows. */
  type Image = seq<seq<real>>

  /** The translation collaborator: the image shifted horizontally by the given number of pixels. */
  type Translate = (Image, real) -> Image

  /** Row by row, `a` and `b` have the same number of pixels. */
  predicate SameShape(a: Image, b: Image) {
    |a| == |b| && forall r :: 0 <= r < |a| ==> |a[r]| == |b[r]|
  }

  /** Number of columns of an image (0 for an image without rows). */
  function Columns(m: Image): nat {
    if |m| == 0 then 0 else |m[0]|
  }

  /** Every shift of `m` has the shape of `m`. */
  ghost predicate KeepsShape(translate: Translate, m: Image) {
    forall s: real :: SameShape(translate(m, s), m)
  }

  function Abs(x: real): real { if x < 0.0 then -x else x }

  /** `|a - b|`, pixel by pixel. */
  function AbsDiff(a: Image, b: Image): (d: Image)
    requires SameShape(a, b)
    ensures SameShape(d, a)
    ensures forall r, c :: 0 <= r < |d| && 0 <= c < |d[r]| ==> d[r][c] >= 0.0
  {
    seq(|a|, r requires 0 <= r < |a| => seq(|a[r]|, c requires 0 <= c < |a[r]| => Abs(a[r][c] - b[r][c])))
  }

  /** Sub-pixel resolution of the scan: four steps per pixel. */
  const PxStep: nat := 4

  /** Number of shifts the scan samples for a range: `pxStep*range*2+1`. */
  function SampleCount(range: nat): nat {
    PxStep * range * 2 + 1
  }

  /** The k-th shift the scan visits, `-range + k/4`. */
  function SampleShift(range: nat, k: int): real {
    -(range as real) + k as real / PxStep as real
  }

  /** The output row written for shift `s`: `(s+range)*pxStep`, truncated to an integer. */
  function RowOfShift(range: nat, s: real): int {
    ((s + range as real) * PxStep as real).Floor
  }

  /**
   * The loop counter visits exactly the samples 0..8*range: the k-th shift
   * is still within the range iff k <= 8*range, it is written to row k, and
   * the sampled shifts increase by a quarter pixel.
   */
  lemma SamplesAndRows(range: nat, k: int)
    requires 0 <= k
    ensures SampleShift(range, k) <= range as real <==> k < SampleCount(range)
    ensures RowOfShift(range, SampleShift(range, k)) == k
    ensures SampleShift(range, k + 1) == SampleShift(range, k) + 0.25
    ensures SampleShift(range, 0) == -(range as real)
  {
  }

  /**
   * The cost field of one line: sample k holds row `line` of
   * `|left - translate(right, -range + k/4)|`.
   */
  function LineCosts(left: Image, right: Image, line: nat, range: nat, translate: Translate): (costs: Image)
    requires SameShape(left, right) && KeepsShape(translate, right) && line < |right|
    ensures |costs| == SampleCount(range)
    ensures forall k :: 0 <= k < |costs| ==> |costs[k]| == |right[line]|
  {
    seq(SampleCount(range), k requires 0 <= k < SampleCount(range) =>
      AbsDiff(left, translate(right, SampleShift(range, k)))[line])
  }

  /** Every cost is non-negative, and on a rectangular image every row of the field spans all columns. */
  lemma LineCostsNonNegative(left: Image, right: Image, line: nat, range: nat, translate: Translate)
    requires SameShape(left, right) && KeepsShape(translate, right) && line < |right|
    requires forall r :: 0 <= r < |right| ==> |right[r]| == Columns(right)
    ensures forall k, c :: 0 <= k < SampleCount(range) && 0 <= c < Columns(right) ==>
              LineCosts(left, right, line, range, translate)[k][c] >= 0.0
  {
    var costs := LineCosts(left, right, line, range, translate);
    forall k, c | 0 <= k < SampleCount(range) && 0 <= c < Columns(right)
      ensures costs[k][c] >= 0.0
    {
      var diff := AbsDiff(left, translate(right, SampleShift(range, k)));
      assert costs[k] == diff[line];
    }
  }

  /** A channel buffer: a matrix of reals stored as an array of rows. */
  class Channel {
    var cells: array<seq<real>>

    /** An empty channel. */
    constructor ()
      ensures cells.Length == 0
    {
      cells := new seq<real>[0];
    }

    /** `allocate(rows, cols)`: fresh storage of the given size; the contents are unspecified. */
    method Allocate(rows: nat, cols: nat)
      modifies this
      ensures fresh(cells) && cells.Length == rows
      ensures forall r :: 0 <= r < rows ==> |cells[r]| == cols
    {
      cells := new seq<real>[rows](_ => seq(cols, _ => 0.0));
    }
  }

  /**
   * `lineDisparity`: for an invalid line report and leave the output alone;
   * otherwise allocate one row per sampled shift and, walking the shifts
   * from -range to +range in quarter-pixel steps, copy row `line` of
   * `|left - translate(right, s)|` into row `(s+range)*4`. The ghost result
   * lists the rows in the order they are written.
   */
  method LineDisparity(line: int, left: Image, right: Image, range: nat, translate: Translate, disparity: Channel)
    returns (ghost written: seq<int>)
    requires SameShape(left, right) && KeepsShape(translate, right)
    modifies disparity
    ensures !(0 <= line < |right|) ==> unchanged(disparity) && written == []
    ensures 0 <= line < |right| ==>
              && fresh(disparity.cells)
              && disparity.cells[..] == LineCosts(left, right, line, range, translate)
              && |written| == SampleCount(range)
              && forall j :: 0 <= j < |written| ==> written[j] == j
  {
    if line < 0 || line >= |right| {
      // "Invalid line number."
      return [];
    }
    disparity.Allocate(PxStep * range * 2 + 1, Columns(right));
    var step: real := 1.0 / PxStep as real;
    ghost var costs := LineCosts(left, right, line, range, translate);
    ghost var k: nat := 0;
    written := [];
    var i: real := -(range as real);
    while i <= range as real
      invariant k <= SampleCount(range)
      invariant i == SampleShift(range, k)
      invariant fresh(disparity.cells) && disparity.cells.Length == SampleCount(range)
      invariant forall j :: 0 <= j < k ==> disparity.cells[j] == costs[j]
      invariant |written| == k && forall j :: 0 <= j < k ==> written[j] == j
      decreases SampleCount(range) - k
    {
      SamplesAndRows(range, k);
      var transRight := translate(right, i);
      var tmpDisparity := AbsDiff(left, transRight);
      assert tmpDisparity[line] == costs[k];
      var row := ((i + range as real) * PxStep as real).Floor;
      assert row == k;
      disparity.cells[row] := tmpDisparity[line];
      written := written + [row];
      i := i + step;
      k := k + 1;
    }
    SamplesAndRows(range, k);
    assert disparity.cells[..] == costs;
  }

  /** The command-line options as `getopt_long` delivers them. */
  datatype Opt = RangeOpt(value: int) | LineOpt(value: int) | HelpOpt | UnknownOpt(c: char)

  /** What the constructor leaves in the object's fields. */
  datatype Settings = Settings(range: int, line: int, imgFile1: string, imgFile2: string)

  datatype ParseOutcome = Ready(settings: Settings) | Exit(code: ExitCode)

  /** `range_` is initialised to 20 and `line_` to -1 ("no line"). */
  const DefaultRange: int := 20
  const NoLine: int := -1

  /** Index of the last `-r` option, or -1 when there is none. */
  function LastRangeIndex(opts: seq<Opt>): (k: int)
    ensures -1 <= k < |opts|
    ensures 0 <= k ==> opts[k].RangeOpt?
    ensures forall m :: k < m < |opts| ==> !opts[m].RangeOpt?
    decreases |opts|
  {
    if opts == [] then -1
    else if opts[|opts| - 1].RangeOpt? then |opts| - 1
    else LastRangeIndex(opts[..|opts| - 1])
  }

  /** Index of the last `-l` option, or -1 when there is none. */
  function LastLineIndex(opts: seq<Opt>): (k: int)
    ensures -1 <= k < |opts|
    ensures 0 <= k ==> opts[k].LineOpt?
    ensures forall m :: k < m < |opts| ==> !opts[m].LineOpt?
    decreases |opts|
  {
    if opts == [] then -1
    else if opts[|opts| - 1].LineOpt? then |opts| - 1
    else LastLineIndex(opts[..|opts| - 1])
  }

  /** `range_` after the options: the value of the last `-r`, or the default. */
  function RangeAfter(opts: seq<Opt>): int {
    var k := LastRangeIndex(opts);
    if k < 0 then DefaultRange else opts[k].value
  }

  /** `line_` after the options: the value of the last `-l`, or -1. */
  function LineAfter(opts: seq<Opt>): int {
    var k := LastLineIndex(opts);
    if k < 0 then NoLine else opts[k].value
  }

  /**
   * The constructor and `parse`: options set the range and the line, `-h`
   * prints the usage and exits with success, and two non-empty positional
   * image files are required (otherwise usage and exit with failure).
   */
  method Parse(opts: seq<Opt>, positional: seq<string>) returns (r: ParseOutcome)
    ensures HelpOpt in opts ==> r == Exit(Success)
    ensures HelpOpt !in opts ==>
              (r.Ready? <==> |positional| >= 2 && positional[0] != "" && positional[1] != "")
    ensures HelpOpt !in opts && r.Exit? ==> r.code == Failure
    ensures r.Ready? ==> r.settings == Settings(RangeAfter(opts), LineAfter(opts), positional[0], positional[1])
  {
    var range, line := DefaultRange, NoLine;
    var n := 0;
    while n < |opts|
      invariant 0 <= n <= |opts|
      invariant HelpOpt !in opts[..n]
      invariant range == RangeAfter(opts[..n]) && line == LineAfter(opts[..n])
    {
      ghost var seen := opts[..n + 1];
      assert seen[..n] == opts[..n] && seen[n] == opts[n];
      match opts[n] {
        case RangeOpt(v) => range := v;
        case LineOpt(v) => line := v;
        case HelpOpt =>
          assert opts[n] in opts;
          return Exit(Success);
        case UnknownOpt(_) =>
      }
      n := n + 1;
    }
    assert opts[..n] == opts;
    var imgFile1, imgFile2 := "", "";
    var optind := 0;
    if optind < |positional| {
      imgFile1 := positional[optind];
      optind := optind + 1;
    }
    if optind < |positional| {
      imgFile2 := positional[optind];
      optind := optind + 1;
    }
    if imgFile1 == "" || imgFile2 == "" {
      // "Two image files needed"
      return Exit(Failure);
    }
    return Ready(Settings(range, line, imgFile1, imgFile2));
  }

  /** The interactive state: the displacement `d` and the selected line. */
  datatype View = View(d: real, line: int)

  const DisplacementStep: real := 0.25

  predicate IsIncrease(code: int) { code == '+' as int || code == UpKey || code == RightKey }
  predicate IsDecrease(code: int) { code == '-' as int || code == DownKey || code == LeftKey }

  /** The effect of one event: shift by a quarter pixel, or select the clicked line. */
  function Step(v: View, e: Event): (r: View)
    ensures r.d == v.d || r.d == v.d + DisplacementStep || r.d == v.d - DisplacementStep
    ensures r.d != v.d ==> e.Key?
    ensures r.line != v.line ==> IsLeftClick(e) && r.line == e.y
  {
    match e
    case Key(k) =>
      if IsIncrease(k) then v.(d := v.d + DisplacementStep)
      else if IsDecrease(k) then v.(d := v.d - DisplacementStep)
      else v
    case Button(b, _, y) => if b == LeftButton then v.(line := y) else v
    case _ => v
  }

  function Replay(v: View, events: seq<Event>): View
    decreases |events|
  {
    if events == [] then v else Step(Replay(v, events[..|events| - 1]), events[|events| - 1])
  }

  /** Number of increase keys minus number of decrease keys. */
  function NetSteps(events: seq<Event>): int
    decreases |events|
  {
    if events == [] then 0
    else
      var e := events[|events| - 1];
      NetSteps(events[..|events| - 1]) +
        (if e.Key? && IsIncrease(e.code) then 1 else if e.Key? && IsDecrease(e.code) then -1 else 0)
  }

  /** There is no clamp: the displacement is the start plus a quarter pixel per net increase. */
  lemma {:induction false} DisplacementIsNetSteps(v: View, events: seq<Event>)
    ensures Replay(v, events).d == v.d + DisplacementStep * NetSteps(events) as real
    decreases |events|
  {
    if events != [] {
      DisplacementIsNetSteps(v, events[..|events| - 1]);
    }
  }

  /** An increase followed by a decrease restores the view, and vice versa. */
  lemma IncreaseDecreaseInverse(v: View, up: int, down: int)
    requires IsIncrease(up) && IsDecrease(down)
    ensures Step(Step(v, Key(up)), Key(down)) == v
    ensures Step(Step(v, Key(down)), Key(up)) == v
  {
  }

  /** Unassigned keys, other buttons and other events change neither `d` nor the line; a left click selects its row. */
  lemma OnlyAssignedEventsAct(v: View, e: Event)
    ensures (e.Key? && !IsIncrease(e.code) && !IsDecrease(e.code)) ==> Step(v, e) == v
    ensures (e.Button? && e.button != LeftButton) || e.Closed? || e.Other? ==> Step(v, e) == v
    ensures IsLeftClick(e) ==> Step(v, e) == View(v.d, e.y)
  {
  }

  /** Index of the last left click among the events, or -1 when there is none. */
  function LastClickIndex(events: seq<Event>): (k: int)
    ensures -1 <= k < |events|
    ensures 0 <= k ==> IsLeftClick(events[k])
    ensures forall m :: k < m < |events| ==> !IsLeftClick(events[m])
    decreases |events|
  {
    if events == [] then -1
    else if IsLeftClick(events[|events| - 1]) then |events| - 1
    else LastClickIndex(events[..|events| - 1])
  }

  /** The selected line is the row of the last left click, or the start line when there was none. */
  lemma {:induction false} LineIsLastClick(v: View, events: seq<Event>)
    ensures var k := LastClickIndex(events);
            Replay(v, events).line == if k < 0 then v.line else events[k].y
    decreases |events|
  {
    if events != [] && !IsLeftClick(events[|events| - 1]) {
      var init := events[..|events| - 1];
      LineIsLastClick(v, init);
      var k := LastClickIndex(init);
      assert 0 <= k ==> init[k] == events[k];
    }
  }

  /**
   * The interaction loop of `apply`: show `|left - translate(right, d)|`,
   * wait for an event, update `d` or select the clicked line (recomputing
   * its cost field), until the window is closed. The line preview at
   * startup runs only for a line inside the image. The range may be
   * negative only when the line scan never runs.
   */
  method Apply(left: Image, right: Image, translate: Translate, range: int, line0: int, events: seq<Event>)
    returns (d: real, line: int, shown: Image, ld: Channel, consumed: nat)
    requires SameShape(left, right) && KeepsShape(translate, right)
    requires forall j :: 0 <= j < |events| && IsLeftClick(events[j]) ==> 0 <= events[j].y < |right|
    requires range < 0 ==>
               !(0 <= line0 < |right|) && forall j :: 0 <= j < |events| ==> !IsLeftClick(events[j])
    ensures consumed == Served(events)
    ensures View(d, line) == Replay(View(0.0, line0), events[..consumed])
    ensures shown == AbsDiff(left, translate(right, d))
    ensures 0 <= line < |right| ==> 0 <= range && ld.cells[..] == LineCosts(left, right, line, range as nat, translate)
    ensures !(0 <= line < |right|) ==> ld.cells.Length == 0
  {
    line := line0;
    ld := new Channel();
    if 0 <= line < |right| {
      ghost var w := LineDisparity(line, left, right, range, translate, ld);
    }
    d := 0.0;
    shown := AbsDiff(left, translate(right, d));
    consumed := 0;
    var closed := false;
    while !closed && consumed < |events|
      invariant consumed <= |events|
      invariant closed ==> 0 < consumed && events[consumed - 1] == Closed
      invariant forall j :: 0 <= j < consumed - 1 ==> events[j] != Closed
      invariant !closed ==> forall j :: 0 <= j < consumed ==> events[j] != Closed
      invariant View(d, line) == Replay(View(0.0, line0), events[..consumed])
      invariant shown == AbsDiff(left, translate(right, d))
      invariant range < 0 ==> line == line0
      invariant 0 <= line < |right| ==> 0 <= range && ld.cells[..] == LineCosts(left, right, line, range as nat, translate)
      invariant !(0 <= line < |right|) ==> ld.cells.Length == 0
    {
      var action := events[consumed];
      match action {
        case Key(k) =>
          if k == '+' as int || k == UpKey || k == RightKey {
            d := d + DisplacementStep;
          } else if k == '-' as int || k == DownKey || k == LeftKey {
            d := d - DisplacementStep;
          }
        case Button(b, _, y) =>
          if b == LeftButton {
            line := y;
            ld := new Channel();
            ghost var w := LineDisparity(line, left, right, range, translate, ld);
          }
        case _ =>
      }
      assert events[..consumed + 1][..consumed] == events[..consumed];
      consumed := consumed + 1;
      closed := action == Closed;
      if !closed {
        shown := AbsDiff(left, translate(right, d));
      }
    }
  }

  /** The program gets as far as the interaction loop: no `-h`, two non-empty file names, both of which load. */
  predicate Session(opts: seq<Opt>, positional: seq<string>, load: string -> Option<Image>) {
    && HelpOpt !in opts
    && |positional| >= 2 && positional[0] != "" && positional[1] != ""
    && load(positional[0]).Some? && load(positional[1]).Some?
  }

  /**
   * The program: construct (parse), load both images, run the loop. `apply`
   * returns false even after the window is closed, so the program exits with
   * failure in every case except `-h`; while no close has arrived it is
   * still in the loop (`None`). A negative `-r` value is accepted as long as
   * the line scan never runs: no valid start line and no left click.
   */
  method Run(opts: seq<Opt>, positional: seq<string>, load: string -> Option<Image>,
              translate: Translate, events: seq<Event>)
    returns (exit: Option<ExitCode>, d: real, line: int, consumed: nat)
    requires Session(opts, positional, load) ==>
               var left, right := load(positional[0]).value, load(positional[1]).value;
               && SameShape(left, right) && KeepsShape(translate, right)
               && (forall j :: 0 <= j < |events| && IsLeftClick(events[j]) ==> 0 <= events[j].y < |right|)
               && (RangeAfter(opts) < 0 ==>
                     && !(0 <= LineAfter(opts) < |right|)
                     && forall j :: 0 <= j < |events| ==> !IsLeftClick(events[j]))
    ensures exit == Some(Success) <==> HelpOpt in opts
    ensures exit == None <==> Session(opts, positional, load) && Closed !in events
    ensures Session(opts, positional, load) ==>
              && consumed == Served(events)
              && View(d, line) == Replay(View(0.0, LineAfter(opts)), events[..consumed])
    ensures !Session(opts, positional, load) ==> consumed == 0
  {
    d, line, consumed := 0.0, NoLine, 0;
    var parsed := Parse(opts, positional);
    if parsed.Exit? {
      return Some(parsed.code), d, line, consumed;
    }
    var s := parsed.settings;
    var img1 := load(s.imgFile1);
    if img1.None? {
      return Some(Failure), d, line, consumed;
    }
    var img2 := load(s.imgFile2);
    if img2.None? {
      return Some(Failure), d, line, consumed;
    }
    var shown, ld;
    d, line, shown, ld, consumed := Apply(img1.value, img2.value, translate, s.range, s.line, events);
    if Closed in events {
      exit := Some(Failure);
    } else {
      // still waiting for the next event
      exit := None;
    }
  }
}
