/**
 * The interactive tuning loop of the Canny edge demo
 * (Proyecto-Final/Canny/canny.cpp, `canny::apply`): a modal state selects
 * which field of the edge detector's parameters the arrow keys change.
 * The detector itself, the display and the help text are not modelled.
 */
module Canny {
  import opened Common

  /** The mode that decides which parameter the arrow keys change. */
  datatype Mode = KVariance | KSize | MxThresh | MnThresh | GType

  /** The gradient kernels the demo cycles through, in the order of its table. */
  datatype KernelType = Ando | OGD | Difference | Roberts | Sobel | Prewitt | Robinson | Kirsch | Harris

  const KTypes: seq<KernelType> := [Ando, OGD, Difference, Roberts, Sobel, Prewitt, Robinson, Kirsch, Harris]

  /** Valid positions in KTypes. */
  type KIdx = i: int | 0 <= i < 9

  /** The fields of the edge detector's parameter record that the keys change. */
  datatype CannyParams = CannyParams(
    variance: real,
    kernelSize: int,
    thresholdMax: real,
    thresholdMin: real,
    kernelType: KernelType)

  /** The loop's state: the mode, the kernel-table index and the parameters. */
  datatype Tuning = Tuning(state: Mode, ktypeIdx: KIdx, par: CannyParams)

  /** Up and Down change reals by the coarse step, Right and Left by the fine one. */
  const CoarseStep: real := 0.1
  const FineStep: real := 0.01

  function Min(a: real, b: real): real { if a <= b then a else b }
  function Max(a: real, b: real): real { if a >= b then a else b }

  /** The state before the first event: gradient-type mode, first table entry. */
  function Start(par: CannyParams): Tuning {
    Tuning(GType, 0, par)
  }

  /** The key that selects each mode. */
  function ModeKey(m: Mode): int {
    match m
    case KVariance => 'v' as int
    case KSize => 'k' as int
    case MxThresh => 'm' as int
    case MnThresh => 'l' as int
    case GType => 'g' as int
  }

  predicate IsIncrease(code: int) { code == UpKey || code == RightKey }
  predicate IsDecrease(code: int) { code == DownKey || code == LeftKey }

  /** The parameters the loop keeps in their domain: thresholds in [0,1], size at least 1, variance non-negative. */
  predicate InDomain(p: CannyParams) {
    0.0 <= p.thresholdMin <= 1.0 && 0.0 <= p.thresholdMax <= 1.0 && p.kernelSize >= 1 && p.variance >= 0.0
  }

  /** An increase arrow with the given step applied to the selected parameter. */
  function Increase(t: Tuning, step: real): (r: Tuning)
    ensures r.state == t.state
    ensures 0.0 <= step && InDomain(t.par) ==> InDomain(r.par)
    ensures r.par.kernelType == KTypes[r.ktypeIdx] || r.ktypeIdx == t.ktypeIdx
  {
    match t.state
    case KVariance => t.(par := t.par.(variance := t.par.variance + step))
    case KSize => t.(par := t.par.(kernelSize := t.par.kernelSize + 1))
    case MxThresh => t.(par := t.par.(thresholdMax := Min(1.0, t.par.thresholdMax + step)))
    case MnThresh => t.(par := t.par.(thresholdMin := Min(1.0, t.par.thresholdMin + step)))
    case GType =>
      var i := (t.ktypeIdx + 1) % 9;
      t.(ktypeIdx := i, par := t.par.(kernelType := KTypes[i]))
  }

  /** A decrease arrow with the given step applied to the selected parameter. */
  function Decrease(t: Tuning, step: real): (r: Tuning)
    ensures r.state == t.state
    ensures 0.0 <= step && InDomain(t.par) ==> InDomain(r.par)
    ensures r.par.kernelType == KTypes[r.ktypeIdx] || r.ktypeIdx == t.ktypeIdx
  {
    match t.state
    case KVariance => t.(par := t.par.(variance := Max(0.0, t.par.variance - step)))
    case KSize => t.(par := t.par.(kernelSize := if t.par.kernelSize - 1 >= 1 then t.par.kernelSize - 1 else 1))
    case MxThresh => t.(par := t.par.(thresholdMax := Max(0.0, t.par.thresholdMax - step)))
    case MnThresh => t.(par := t.par.(thresholdMin := Max(0.0, t.par.thresholdMin - step)))
    case GType =>
      var i := (t.ktypeIdx + 8) % 9;
      t.(ktypeIdx := i, par := t.par.(kernelType := KTypes[i]))
  }

  /**
   * The effect of one event. 'g' falls through into the help branch in the
   * source; printing the help is its only extra effect, so it is not visible here.
   */
  function Step(t: Tuning, e: Event): (r: Tuning)
    ensures r.state != t.state ==> e == Key(ModeKey(r.state))
    ensures r.par != t.par || r.ktypeIdx != t.ktypeIdx ==> e.Key? && (IsIncrease(e.code) || IsDecrease(e.code))
  {
    match e
    case Key(k) =>
      if k == 'v' as int then t.(state := KVariance)
      else if k == 'k' as int then t.(state := KSize)
      else if k == 'm' as int then t.(state := MxThresh)
      else if k == 'l' as int then t.(state := MnThresh)
      else if k == 'g' as int then t.(state := GType)
      else if IsIncrease(k) then Increase(t, if k == UpKey then CoarseStep else FineStep)
      else if IsDecrease(k) then Decrease(t, if k == DownKey then CoarseStep else FineStep)
      else t
    case _ => t
  }

  /** The state after handling `events` in order. */
  function Replay(t: Tuning, events: seq<Event>): Tuning
    decreases |events|
  {
    if events == [] then t else Step(Replay(t, events[..|events| - 1]), events[|events| - 1])
  }

  /**
   * The interaction loop: wait for an event, update the mode or the selected
   * parameter, and repeat until the window is closed. Returns the final
   * state and the number of events consumed.
   */
  method Apply(init: CannyParams, events: seq<Event>)
    returns (state: Mode, ktypeIdx: KIdx, thPar: CannyParams, consumed: nat)
    ensures consumed == Served(events)
    ensures Tuning(state, ktypeIdx, thPar) == Replay(Start(init), events[..consumed])
    ensures InDomain(init) ==> InDomain(thPar)
  {
    state, ktypeIdx, thPar := GType, 0, init;
    consumed := 0;
    var closed := false;
    while !closed && consumed < |events|
      invariant consumed <= |events|
      invariant closed ==> 0 < consumed && events[consumed - 1] == Closed
      invariant forall j :: 0 <= j < consumed - 1 ==> events[j] != Closed
      invariant !closed ==> forall j :: 0 <= j < consumed ==> events[j] != Closed
      invariant Tuning(state, ktypeIdx, thPar) == Replay(Start(init), events[..consumed])
    {
      var action := events[consumed];
      state, ktypeIdx, thPar := Handle(state, ktypeIdx, thPar, action);
      assert events[..consumed + 1][..consumed] == events[..consumed];
      consumed := consumed + 1;
      closed := action == Closed;
    }
    if InDomain(init) {
      ReplayStaysInDomain(Start(init), events[..consumed]);
    }
  }

  /**
   * The body of the loop: the `switch` over one event, updating the locals
   * in place. It is a method of its own so that the loop's proof stays
   * within the solver's budget; its contract ties it to `Step`.
   */
  method Handle(state: Mode, ktypeIdx: KIdx, thPar: CannyParams, action: Event)
    returns (state': Mode, ktypeIdx': KIdx, thPar': CannyParams)
    ensures Tuning(state', ktypeIdx', thPar') == Step(Tuning(state, ktypeIdx, thPar), action)
  {
    state', ktypeIdx', thPar' := state, ktypeIdx, thPar;
    match action {
      case Key(k) =>
        if k == 'v' as int {
          state' := KVariance;
        } else if k == 'k' as int {
          state' := KSize;
        } else if k == 'm' as int {
          state' := MxThresh;
        } else if k == 'l' as int {
          state' := MnThresh;
        } else if k == 'g' as int {
          state' := GType;
        } else if k == UpKey || k == RightKey {
          var step := if k == UpKey then CoarseStep else FineStep;
          match state {
            case KVariance => thPar' := thPar.(variance := thPar.variance + step);
            case KSize => thPar' := thPar.(kernelSize := thPar.kernelSize + 1);
            case MxThresh => thPar' := thPar.(thresholdMax := Min(1.0, thPar.thresholdMax + step));
            case MnThresh => thPar' := thPar.(thresholdMin := Min(1.0, thPar.thresholdMin + step));
            case GType =>
              ktypeIdx' := (ktypeIdx + 1) % 9;
              thPar' := thPar.(kernelType := KTypes[ktypeIdx']);
          }
        } else if k == DownKey || k == LeftKey {
          var step := if k == DownKey then CoarseStep else FineStep;
          match state {
            case KVariance => thPar' := thPar.(variance := Max(0.0, thPar.variance - step));
            case KSize =>
              thPar' := thPar.(kernelSize := if thPar.kernelSize - 1 >= 1 then thPar.kernelSize - 1 else 1);
            case MxThresh => thPar' := thPar.(thresholdMax := Max(0.0, thPar.thresholdMax - step));
            case MnThresh => thPar' := thPar.(thresholdMin := Max(0.0, thPar.thresholdMin - step));
            case GType =>
              ktypeIdx' := (ktypeIdx + 8) % 9;
              thPar' := thPar.(kernelType := KTypes[ktypeIdx']);
          }
        }
      case _ =>
    }
  }

  /** One event keeps the parameters in their domain. */
  lemma StepStaysInDomain(t: Tuning, e: Event)
    requires InDomain(t.par)
    ensures InDomain(Step(t, e).par)
  {
  }

  /** A whole run keeps the parameters in their domain. */
  lemma {:induction false} ReplayStaysInDomain(t: Tuning, events: seq<Event>)
    requires InDomain(t.par)
    ensures InDomain(Replay(t, events).par)
    decreases |events|
  {
    if events != [] {
      ReplayStaysInDomain(t, events[..|events| - 1]);
      StepStaysInDomain(Replay(t, events[..|events| - 1]), events[|events| - 1]);
    }
  }

  /** A mode key switches the mode and changes no parameter. */
  lemma ModeKeySelectsOnly(t: Tuning, m: Mode)
    ensures Step(t, Key(ModeKey(m))) == t.(state := m)
  {
  }

  /**
   * An arrow key keeps the mode and changes only the parameter the mode
   * selects (the table index moves together with the kernel type).
   */
  lemma ArrowChangesSelectedOnly(t: Tuning, code: int)
    requires IsIncrease(code) || IsDecrease(code)
    ensures var t' := Step(t, Key(code));
      && t'.state == t.state
      && (t'.par.variance != t.par.variance ==> t.state == KVariance)
      && (t'.par.kernelSize != t.par.kernelSize ==> t.state == KSize)
      && (t'.par.thresholdMax != t.par.thresholdMax ==> t.state == MxThresh)
      && (t'.par.thresholdMin != t.par.thresholdMin ==> t.state == MnThresh)
      && ((t'.par.kernelType != t.par.kernelType || t'.ktypeIdx != t.ktypeIdx) ==> t.state == GType)
  {
  }

  /**
   * Up and Down move a selected real by 0.1, Right and Left by 0.01; the
   * thresholds are clamped to [0,1], the variance below at 0; the kernel
   * size moves by 1 and never drops below 1.
   */
  lemma ArrowSteps(t: Tuning)
    ensures t.state == MxThresh ==>
      Step(t, Key(UpKey)).par.thresholdMax == Min(1.0, t.par.thresholdMax + 0.1) &&
      Step(t, Key(RightKey)).par.thresholdMax == Min(1.0, t.par.thresholdMax + 0.01) &&
      Step(t, Key(DownKey)).par.thresholdMax == Max(0.0, t.par.thresholdMax - 0.1) &&
      Step(t, Key(LeftKey)).par.thresholdMax == Max(0.0, t.par.thresholdMax - 0.01)
    ensures t.state == MnThresh ==>
      Step(t, Key(UpKey)).par.thresholdMin == Min(1.0, t.par.thresholdMin + 0.1) &&
      Step(t, Key(RightKey)).par.thresholdMin == Min(1.0, t.par.thresholdMin + 0.01) &&
      Step(t, Key(DownKey)).par.thresholdMin == Max(0.0, t.par.thresholdMin - 0.1) &&
      Step(t, Key(LeftKey)).par.thresholdMin == Max(0.0, t.par.thresholdMin - 0.01)
    ensures t.state == KVariance ==>
      Step(t, Key(UpKey)).par.variance == t.par.variance + 0.1 &&
      Step(t, Key(RightKey)).par.variance == t.par.variance + 0.01 &&
      Step(t, Key(DownKey)).par.variance == Max(0.0, t.par.variance - 0.1) &&
      Step(t, Key(LeftKey)).par.variance == Max(0.0, t.par.variance - 0.01)
    ensures t.state == KSize ==>
      Step(t, Key(UpKey)).par.kernelSize == Step(t, Key(RightKey)).par.kernelSize == t.par.kernelSize + 1
    ensures t.state == KSize ==>
      Step(t, Key(DownKey)).par.kernelSize == Step(t, Key(LeftKey)).par.kernelSize ==
        (if t.par.kernelSize - 1 >= 1 then t.par.kernelSize - 1 else 1)
  {
  }

  /**
   * In gradient-type mode an increase followed by a decrease (or the other
   * way round) restores the index, and the kernel type then matches the table.
   */
  lemma KernelCycleInverse(t: Tuning, up: int, down: int)
    requires t.state == GType && IsIncrease(up) && IsDecrease(down)
    ensures Step(Step(t, Key(up)), Key(down)).ktypeIdx == t.ktypeIdx
    ensures Step(Step(t, Key(down)), Key(up)).ktypeIdx == t.ktypeIdx
    ensures Step(Step(t, Key(up)), Key(down)).par.kernelType == KTypes[t.ktypeIdx]
    ensures Step(t, Key(up)).par.kernelType == KTypes[Step(t, Key(up)).ktypeIdx]
  {
    var i: int := t.ktypeIdx;
    assert (i + 1) % 9 == if i == 8 then 0 else i + 1;
    assert (i + 8) % 9 == if i == 0 then 8 else i - 1;
    assert ((i + 1) % 9 + 8) % 9 == i;
    assert ((i + 8) % 9 + 1) % 9 == i;
  }

  /** Unassigned keys, button presses and other events change nothing. */
  lemma OtherEventsChangeNothing(t: Tuning, e: Event)
    requires e.Key? ==> e.code !in {'v' as int, 'k' as int, 'm' as int, 'l' as int, 'g' as int,
                                    UpKey, RightKey, DownKey, LeftKey}
    ensures Step(t, e) == t
  {
  }

  /** The thresholds are clamped independently: the minimum may end above the maximum. */
  lemma ThresholdsMayCross()
    ensures var t := Tuning(MnThresh, 0, CannyParams(1.0, 3, 0.5, 0.5, Ando));
            Step(t, Key(UpKey)).par.thresholdMin > Step(t, Key(UpKey)).par.thresholdMax
  {
  }
}
