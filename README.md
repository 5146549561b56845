# Interactive LTI-Lib demo programs, modelled in Dafny

This project models the control logic of the demo programs in
Proyecto-Final, which are built on the LTI-Lib vision library:

- **disparity**: parses the command line and scans the stereo cost field
  of one image line (`lineDisparity`). Its interactive loop moves the
  horizontal displacement `d` by quarter pixels and selects a line with a
  left click.
- **Canny**: the key-driven state machine. A mode key selects which
  parameter the arrow keys change: kernel variance, kernel size, the two
  hysteresis thresholds, or the gradient kernel type.
- **thresholding**: the byte histogram computed for display, and the key
  handler that tunes the foreground interval, the method and the two
  keep flags.
- **viewer**: shows every command-line argument as an image. It loads by
  file header and walks the arguments with wrap-around navigation.
- **meanShiftTracker**: covers the command line and the configuration
  file. That file is read field by field and rewritten when it is missing
  or incomplete. Also modelled: the rotation angle that wraps after
  `numTurns` turns, and the tracking latch that a left click turns on.
- **chessCorners**: covers the command line (camera flag, file name,
  help), the same read-or-rewrite rule for `chess.dat`, and how `main`
  ends.

Each program is one module (`Disparity`, `Canny`, `Thresholding`, `Viewer`,
`MeanShiftTracker`, `ChessCorners`). `Common` holds what they share: the
events a viewer window delivers, the navigation key codes, exit codes,
argument scanning and the short-circuit read count.

The event loops of disparity, Canny, thresholding and meanShiftTracker
follow the same pattern. Each is a `method` whose `while` loop consumes a
finite sequence of events and updates its locals in place, as the C++ does.
The loop invariant ties those locals to `Replay`, which folds a pure `Step`
function over the events consumed so far. The loop stops after the first
`Closed` event, so it consumes `Served(events)` events. Lemmas about `Step`
and `Replay` state what the keys do.

The viewer has two nested loops instead. The inner loop (`Viewer.Wait`)
waits on the shown file and stops at the first close or navigation key,
whose effect `React` gives. The outer loop (`Viewer.Run`) walks the
arguments, skipping files that do not load. Its iterations are bounded by a
`fuel` parameter, because the source can loop forever. A run ends with
`OutOfFuel` only when the fuel does not exceed one pass over the arguments
per consumed event, or when it is retrying a last argument that does not
load. So with enough fuel a served close ends the run with success. The argument it
shows is tied to `Cursor`, which folds `Advance` (navigation, then skipping
to a file that loads, `Land`) over the events consumed.

Collaborators become parameters:
- image loaders and header checks;
- the geometric transform used to shift an image;
- the mean-shift tracker;
- the configuration file, given as the result of each read in order.

Floating-point values are modelled as reals. Key codes are X11 key symbols
(Left 65361 through PageDown 65366). thresholding.cpp compares the four
arrow codes 65361 to 65364 literally.

Behaviour of the code worth knowing:
- `disparity::apply` (and the `apply` of the Canny and thresholding demos)
  returns `false` after the window is closed. So `main` in disparity.cpp
  exits with failure after a normal session, not with success
  (`Disparity.Run`).
- No program checks whether writing the configuration file succeeded. A
  failed write is never an exit condition.
- In canny.cpp the `'g'` case falls through into the help case. That
  fall-through only prints the help text, so the model gives `'g'` its
  plain effect (select the gradient-type mode). This matches the code.
- In chessCorners.cpp, running without a camera and without a file name
  prints the usage and exits with success.

## Model

| member | source | states |
|---|---|---|
| Common.LastFilenameIsLastPlain | Proyecto-Final/meanShiftTracker/meanShiftTracker.cpp:87-101 | The file name a hand-written scanner keeps is the last argument that does not start with '-', or empty when every argument is an option |
| Disparity.AbsDiff | Proyecto-Final/disparity/disparity.cpp:149-150 | The pixelwise absolute difference has the shape of its operands and no negative entry |
| Disparity.SamplesAndRows | Proyecto-Final/disparity/disparity.cpp:136-152 | Sample k is the shift -range + k/4: it is within the range iff k < 8*range+1, consecutive samples differ by a quarter pixel, and sample k is written to row k |
| Disparity.LineCosts | Proyecto-Final/disparity/disparity.cpp:139-153 | The cost field of a line has 8*range+1 rows, each as wide as the right image's line |
| Disparity.LineCostsNonNegative | Proyecto-Final/disparity/disparity.cpp:149-152 | Every cost of the field is non-negative |
| Disparity.Channel.Allocate | Proyecto-Final/disparity/disparity.cpp:139 | The channel gets a fresh buffer of the requested rows, each of the requested width |
| Disparity.LineDisparity | Proyecto-Final/disparity/disparity.cpp:121-154 | An invalid line leaves the output untouched; otherwise the output holds one row per sampled shift, row k being line `line` of abs(left - right shifted by -range + k/4), rows written in increasing order |
| Disparity.LastRangeIndex | Proyecto-Final/disparity/disparity.cpp:85-89 | Finds the -r option whose value the range keeps: it is an -r option and no -r follows it, or -1 (range stays 20) when there is none |
| Disparity.LastLineIndex | Proyecto-Final/disparity/disparity.cpp:83-92 | Finds the -l option whose value the line keeps: it is an -l option and no -l follows it, or -1 (line stays -1) when there is none |
| Disparity.Parse | Proyecto-Final/disparity/disparity.cpp:67-119 | -h exits with success; otherwise the settings are ready iff two non-empty positional file names are given, and any other exit is a failure; the settings carry the last -r, the last -l and the first two positional arguments |
| Disparity.Step | Proyecto-Final/disparity/disparity.cpp:228-270 | One event moves d by at most a quarter pixel, and only a key moves it; the line changes only to the row of a left click |
| Disparity.DisplacementIsNetSteps | Proyecto-Final/disparity/disparity.cpp:234-245 | With no clamp, the displacement after any events is the start plus 0.25 times (increase keys - decrease keys) |
| Disparity.IncreaseDecreaseInverse | Proyecto-Final/disparity/disparity.cpp:234-245 | An increase key followed by a decrease key, in either order, restores the view |
| Disparity.OnlyAssignedEventsAct | Proyecto-Final/disparity/disparity.cpp:228-270 | Unassigned keys, other buttons and other events change nothing; a left click selects the clicked row |
| Disparity.LastClickIndex | Proyecto-Final/disparity/disparity.cpp:251-253 | Finds the last left click among the events: it is a left click and none follows it, or -1 when there is none |
| Disparity.LineIsLastClick | Proyecto-Final/disparity/disparity.cpp:251-253 | The selected line is the row of the last left click, or the start line when no left click happened |
| Disparity.Apply | Proyecto-Final/disparity/disparity.cpp:156-275 | The loop consumes events up to the first close; d and the line are the replay of those events; the shown image is abs(left - right shifted by d); a valid selected line yields its cost field, which needs a non-negative range |
| Disparity.Run | Proyecto-Final/disparity/disparity.cpp:280-288 | The program exits with success iff -h was given and is still in its loop (no exit) iff both files load and no close arrives; every other path, a normal close included, ends in failure; in a session the loop consumes the events up to the first close, and d and the line are their replay from 0 and the last -l; only the two named files must fit each other and the clicks, and a negative -r is accepted when the line scan never runs |
| Canny.Increase | Proyecto-Final/Canny/canny.cpp:241-276 | An increase arrow keeps the mode and, with a non-negative step, keeps the parameters in their domain; a moved table index selects its kernel type |
| Canny.Decrease | Proyecto-Final/Canny/canny.cpp:278-313 | A decrease arrow keeps the mode and, with a non-negative step, keeps the parameters in their domain; a moved table index selects its kernel type |
| Canny.Step | Proyecto-Final/Canny/canny.cpp:215-322 | The mode changes only by that mode's key, and the parameters or the table index change only by an arrow key |
| Canny.Handle | Proyecto-Final/Canny/canny.cpp:215-322 | The loop body's in-place update of mode, table index and parameters is one Step of the state machine |
| Canny.Apply | Proyecto-Final/Canny/canny.cpp:193-323 | The loop consumes events up to the first close, ends in the replay of those events from mode GType and index 0, and keeps parameters in their domain |
| Canny.StepStaysInDomain | Proyecto-Final/Canny/canny.cpp:241-313 | One event keeps thresholds in [0,1], kernel size at least 1 and variance non-negative |
| Canny.ReplayStaysInDomain | Proyecto-Final/Canny/canny.cpp:197-323 | Any sequence of events keeps the parameters in that domain |
| Canny.ModeKeySelectsOnly | Proyecto-Final/Canny/canny.cpp:218-237 | 'v', 'k', 'm', 'l' and 'g' switch the mode and change no parameter |
| Canny.ArrowChangesSelectedOnly | Proyecto-Final/Canny/canny.cpp:241-313 | An arrow key keeps the mode and changes only the parameter that the mode selects |
| Canny.ArrowSteps | Proyecto-Final/Canny/canny.cpp:244-303 | For both thresholds and the variance, Up/Down move the value by 0.1 and Right/Left by 0.01; the thresholds are clamped to [0,1] and the variance below at 0; the kernel size grows by 1 and shrinks to max(1, size-1) |
| Canny.KernelCycleInverse | Proyecto-Final/Canny/canny.cpp:268-309 | In gradient-type mode, increase then decrease (or the reverse) restores the table index, and the kernel type is the table entry at the index |
| Canny.OtherEventsChangeNothing | Proyecto-Final/Canny/canny.cpp:315-321 | Unassigned keys, '?', button presses and other events leave the state unchanged |
| Canny.ThresholdsMayCross | Proyecto-Final/Canny/canny.cpp:260-266 | The thresholds are clamped independently, so the minimum threshold can exceed the maximum |
| Thresholding.Histogram | Proyecto-Final/thresholding/thresholding.cpp:163-169 | Entry v of the 256-entry histogram is the number of pixels of value v, and the entries add up to the pixel count |
| Thresholding.CountBelowAll | Proyecto-Final/thresholding/thresholding.cpp:163-169 | Since every byte value is below 256, the per-value counts cover every pixel |
| Thresholding.Raise | Proyecto-Final/thresholding/thresholding.cpp:254-272 | Up/Right change only the interval; a normal interval stays normal and neither end moves down |
| Thresholding.Lower | Proyecto-Final/thresholding/thresholding.cpp:273-293 | Left/Down change only the interval; a normal interval stays normal and neither end moves up |
| Thresholding.Step | Proyecto-Final/thresholding/thresholding.cpp:199-303 | The interval changes only by an arrow key, the selector only by 'h' or 'l', and the method only by that method's key |
| Thresholding.Apply | Proyecto-Final/thresholding/thresholding.cpp:178-307 | The loop consumes events up to the first close, ends in the replay of those events starting on the low end, and keeps a normal interval normal |
| Thresholding.StepKeepsInterval | Proyecto-Final/thresholding/thresholding.cpp:254-294 | Every event keeps 0 <= from <= to <= 1 |
| Thresholding.ReplayKeepsInterval | Proyecto-Final/thresholding/thresholding.cpp:180-307 | Any sequence of events keeps 0 <= from <= to <= 1 |
| Thresholding.ArrowsMoveSelectedEnd | Proyecto-Final/thresholding/thresholding.cpp:254-294 | Arrows move only the selected end (to in high mode, from otherwise) and leave mode, method and flags; Up acts as Right, Down as Left |
| Thresholding.ArrowClamps | Proyecto-Final/thresholding/thresholding.cpp:256-287 | Raising 'to' stops at 1, lowering it stops at 'from'; raising 'from' stops at 'to', lowering it stops at 0 |
| Thresholding.SelectorKeys | Proyecto-Final/thresholding/thresholding.cpp:202-209 | 'h' selects the high end, 'l' the low end, and neither changes a parameter |
| Thresholding.MethodKeySetsMethod | Proyecto-Final/thresholding/thresholding.cpp:210-233 | Each of 'o', 'O', 's', 'S', 'd', 'r' sets its method and changes nothing else |
| Thresholding.TogglesAreInvolutions | Proyecto-Final/thresholding/thresholding.cpp:234-250 | 'b' and 'f' negate their flag, so pressing one twice restores the state |
| Thresholding.OtherEventsChangeNothing | Proyecto-Final/thresholding/thresholding.cpp:251-302 | '?', unassigned keys and non-key events leave the state unchanged |
| Viewer.Probe | Proyecto-Final/viewer/viewer.cpp:51-84 | A failed header check is reported apart from a failed load, and any load attempt leaves at most one buffer holding data |
| Viewer.Display | Proyecto-Final/viewer/viewer.cpp:95-106 | Something is shown iff some buffer holds data; only the byte channel can change, and only by the -c cast of an image when neither channel holds data |
| Viewer.LoadedPictureIsShown | Proyecto-Final/viewer/viewer.cpp:54-106 | After a successful load the picture just loaded is shown: a 'b' LTI file as a byte channel, an 'f' one as a float channel, any other file as an image, or cast to a byte channel under -c |
| Viewer.UnknownLtiContentFails | Proyecto-Final/viewer/viewer.cpp:73-77 | An LTI file whose info is neither 'b' nor 'f' never loads and clears all buffers |
| Viewer.NavigationWraps | Proyecto-Final/viewer/viewer.cpp:118-135 | Next and previous stay on the file arguments, wrap from the last to the first and back, and undo each other |
| Viewer.NextIndex | Proyecto-Final/viewer/viewer.cpp:118-124 | The next index is i+1, or 1 past the end, and stays on the file arguments |
| Viewer.PreviousIndex | Proyecto-Final/viewer/viewer.cpp:128-134 | The previous index is i-1, or argc-1 before the start, and stays on the file arguments |
| Viewer.React | Proyecto-Final/viewer/viewer.cpp:113-135 | The wait finishes iff the window is closed; a move comes only from a key and goes to the next or previous index, on the file arguments |
| Viewer.Land | Proyecto-Final/viewer/viewer.cpp:140-148 | Arriving at argument j, the cursor comes to rest at the first argument from j on that loads, skipping every file that fails, or at the last argument when none loads |
| Viewer.Advance | Proyecto-Final/viewer/viewer.cpp:113-148 | One event while a file is shown moves the cursor by navigation and then lands it, staying on the file arguments |
| Viewer.Cursor | Proyecto-Final/viewer/viewer.cpp:35-150 | The argument the viewer rests on after a sequence of events is always a file argument |
| Viewer.CursorSkips | Proyecto-Final/viewer/viewer.cpp:111-138 | Events that the shown file ignores leave the cursor where it is |
| Viewer.CursorAfterWait | Proyecto-Final/viewer/viewer.cpp:111-138 | After a wait, the cursor stays on the shown file when the wait finished or ran out of events, and otherwise lands from the next or previous index |
| Viewer.Wait | Proyecto-Final/viewer/viewer.cpp:108-138 | Waiting ends at the first close or navigation key, and its result is that event's reaction; unrelated events are skipped |
| Viewer.Run | Proyecto-Final/viewer/viewer.cpp:22-158 | Without file arguments the program fails; it fails otherwise only for a single argument that does not load; success needs a close, -h or -c; a run that has not ended with success has consumed no close, and a blocked run has consumed every event and none was a close and waits on a file that loaded; viewChannel is set only by a -c argument; with several arguments, once the last argument is reached and does not load the loop never ends, and when no argument loads it loops forever without consuming an event; without option arguments, the argument where the run rests is the one Cursor gives for the events consumed, and a blocked or successful run shows it; OutOfFuel only when the fuel is at most one pass over the arguments per consumed event, or on a last argument that does not load; -h as first argument ends with success before any event, and -c as first argument sets viewChannel |
| MeanShiftTracker.ParseArgs | Proyecto-Final/meanShiftTracker/meanShiftTracker.cpp:84-103 | Any -h... argument means help; otherwise the file name is the last argument that does not start with '-' |
| MeanShiftTracker.RewriteIffSomeReadFails | Proyecto-Final/meanShiftTracker/meanShiftTracker.cpp:139-155 | The file is rewritten iff it cannot be opened or one of the five fields cannot be read |
| MeanShiftTracker.LaterFieldsKeepDefaults | Proyecto-Final/meanShiftTracker/meanShiftTracker.cpp:149-153 | After a failed read the later fields keep their defaults whatever the file holds |
| MeanShiftTracker.Loaded | Proyecto-Final/meanShiftTracker/meanShiftTracker.cpp:146-154 | Every value in force is its default or the value the file holds for it; a missing file gives the defaults, and a file whose five reads succeed gives its own values |
| MeanShiftTracker.RewriteIsStable | Proyecto-Final/meanShiftTracker/meanShiftTracker.cpp:155-167 | A rewritten file reads back to the values written and needs no further rewrite |
| MeanShiftTracker.FiveReads | Proyecto-Final/meanShiftTracker/meanShiftTracker.cpp:149-153 | The number of successful reads is fixed by the first read that fails |
| MeanShiftTracker.ReadConfig | Proyecto-Final/meanShiftTracker/meanShiftTracker.cpp:139-167 | Reading yields the values read before the first failure with defaults after it, and asks for a rewrite exactly when one is needed |
| MeanShiftTracker.Centred | Proyecto-Final/meanShiftTracker/meanShiftTracker.cpp:228-229 | The tracking window is 33x33 and centred on the clicked pixel |
| MeanShiftTracker.NextAngle | Proyecto-Final/meanShiftTracker/meanShiftTracker.cpp:209-212 | The new angle is 0 or angle+step; it is angle+step while that is below numTurns*360; it stays below numTurns*360 and is non-negative for non-negative inputs |
| MeanShiftTracker.Step | Proyecto-Final/meanShiftTracker/meanShiftTracker.cpp:196-233 | One frame latches tracking on exactly at a left click, leaves the window alone while not tracking, and advances the angle by the step or resets it to 0 |
| MeanShiftTracker.TrackingIffClicked | Proyecto-Final/meanShiftTracker/meanShiftTracker.cpp:189-233 | Tracking is on iff some frame saw a left click, and it is never switched off |
| MeanShiftTracker.IdleWindowUnchanged | Proyecto-Final/meanShiftTracker/meanShiftTracker.cpp:218-221 | Until the first click the tracker never moves the window |
| MeanShiftTracker.AngleInRange | Proyecto-Final/meanShiftTracker/meanShiftTracker.cpp:182-212 | With a non-negative step and at least one turn, the angle always lies in [0, numTurns*360) |
| MeanShiftTracker.ClickCentresWindow | Proyecto-Final/meanShiftTracker/meanShiftTracker.cpp:226-232 | A click centres the window on itself and latches tracking, whatever the tracker did in that frame |
| MeanShiftTracker.Animate | Proyecto-Final/meanShiftTracker/meanShiftTracker.cpp:196-233 | The frame loop consumes events up to the first close and ends in their replay: tracking iff a left click was consumed, angle within its range |
| MeanShiftTracker.ServedStopsAtClose | Proyecto-Final/meanShiftTracker/meanShiftTracker.cpp:233 | A loop that stops after the first close, or at the end, has consumed exactly the served events |
| MeanShiftTracker.Run | Proyecto-Final/meanShiftTracker/meanShiftTracker.cpp:108-236 | Help exits with success; a missing file name or an unloadable image fails; otherwise the configuration read over the defaults (maxPan 45, angleStep 5, numTurns 10, the library's parameter blocks) is rewritten iff needed, a missing file being rewritten with exactly those defaults; the program exits with success iff the window is closed, and tracking is on iff a left click was served |
| ChessCorners.ParseArgs | Proyecto-Final/Esquinamiento/chessCorners.cpp:52-83 | -h... or exactly --help means help; the camera flag is set iff some -c... argument is given; the file name is the last argument not starting with '-' |
| ChessCorners.RewriteIffSomeReadFails | Proyecto-Final/Esquinamiento/chessCorners.cpp:100-107 | chess.dat is rewritten iff it cannot be opened or one of the two reads fails; a failed first read leaves both defaults |
| ChessCorners.TwoReads | Proyecto-Final/Esquinamiento/chessCorners.cpp:105 | The number of successful reads is fixed by the first read that fails |
| ChessCorners.Loaded | Proyecto-Final/Esquinamiento/chessCorners.cpp:100-106 | Each block in force is its default or the block the file holds; a missing file gives the defaults, and a file whose two reads succeed gives its own blocks |
| ChessCorners.RewriteIsStable | Proyecto-Final/Esquinamiento/chessCorners.cpp:107-117 | A rewritten file reads back to the values written and needs no further rewrite |
| ChessCorners.ReadConfig | Proyecto-Final/Esquinamiento/chessCorners.cpp:99-117 | Reading yields the blocks read before the first failure with defaults after it, and asks for a rewrite exactly when one is needed |
| ChessCorners.Run | Proyecto-Final/Esquinamiento/chessCorners.cpp:88-230 | Help ends with success before the configuration is touched; otherwise the configuration is rewritten iff needed; with neither camera nor file the usage ends with success; the camera (no support) and an unloadable image end with failure |

## Left out

- Image decoding, display windows, drawing, console messages and the
  `getopt_long` machinery are left out. Options reach `Disparity.Parse` as
  already-decoded values, with `atoi` applied.
- Floating-point rounding is not modelled. `d`, the sampled shifts,
  thresholds, variances and angles are exact reals. The float loop counter
  in `lineDisparity` is therefore taken to visit exactly 8*range+1 shifts.
- The LTI library functors are left out: the geometric transform, Canny
  edges, thresholding, the mean-shift tracker, chess cornerness and local
  extremes. The transform and the tracker are function parameters.
  The transform is assumed to keep the shape of the image it shifts
  (`KeepsShape`); nothing else is assumed about what the functors compute.
- The rotation and projection matrices and the `pan` value of
  meanShiftTracker.cpp are left out. They are trigonometry in floating
  point; only the angle that drives them is modelled.
- The V4L2 camera capture loop of chessCorners.cpp is left out. The model
  is the build without camera support, where asking for the camera exits
  with failure.
- Disparity.LineDisparity: a negative range is not modelled (`range` is a
  `nat`). With a negative range the source allocates a channel with a
  negative row count, which the library does not define.
- Disparity.Apply and Disparity.Run accept a negative range only in runs
  where `lineDisparity` is never called: no valid start line and no left
  click. Other runs with a negative `-r` value are excluded for the reason
  above.
- Disparity.LineDisparity, Disparity.Apply and Disparity.Run require the
  two images to have the same shape. disparity.cpp never checks this
  before subtracting them; the library's behaviour for mismatched shapes is
  not modelled. Disparity.Run asks this only of the two files it loads.
- Disparity.Apply and Disparity.Run require left clicks to fall on a row
  of the image. The source paints the clicked row without a bounds check.
- Viewer.Run: iterations of the outer loop are bounded by `fuel`. With
  more than one argument, once the loop reaches a last argument that does
  not load it retries that argument forever (for example `viewer good.png
  bad.png` followed by Right). The model ends such a run with `OutOfFuel`;
  otherwise `OutOfFuel` needs fuel of at most (events consumed) × argc +
  current index.
  When no argument loads, no event is consumed. A single argument that does
  not load exits with failure instead.
- Viewer.Run: the argument the run rests on is stated (through `Cursor`)
  only when no argument is `-c` or `-h`. With options, an argument after
  `-c` is loaded without being checked for `-h`, and that walk is not
  folded into `Cursor`.
- Viewer.Probe: a load that fails after a successful header check is taken
  to leave the target buffer empty. The library does not say what a failed
  load leaves behind.
- MeanShiftTracker.Run: the tracker's internal model, set by
  `initialize`, is not modelled. The tracker is a function of the rendered
  frame's angle and the window.
- MeanShiftTracker.Centred: the 33x33 window centred on a pixel is taken
  as 16 pixels on each side, with inclusive corners.
- The parameter blocks stored in the configuration files (geometric
  transform, mean-shift tracker, chess cornerness, local extremes) are
  opaque strings. A read that fails is taken to leave its target at the
  default.
- MeanShiftTracker.RewriteIsStable and ChessCorners.RewriteIsStable: the
  library's write-then-read round trip of a parameter block is assumed, not
  modelled. `Saved` stores every value so that each later read succeeds
  with the value written.
- ParseArgs in both MeanShiftTracker and ChessCorners requires `argv[0]`,
  the program name, to be present.
