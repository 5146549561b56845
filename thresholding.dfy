/**
 * The thresholding demo (Proyecto-Final/thresholding/thresholding.cpp,
 * `thresh::apply`): the byte histogram computed for display, and the
 * interaction loop that tunes the foreground interval, the method and the
 * keep flags of the thresholding parameters.
 */
module Thresholding {
  import opened Common

  /** A pixel of a byte channel. */
  type Byte = x: int | 0 <= x < 256

  /** Number of pixels of `s` equal to `v`. */
  function Count(s: seq<Byte>, v: int): nat
    decreases |s|
  {
    if s == [] then 0 else Count(s[..|s| - 1], v) + (if s[|s| - 1] == v then 1 else 0)
  }

  /** Sum of the entries of a histogram. */
  function Sum(h: seq<int>): int
    decreases |h|
  {
    if h == [] then 0 else Sum(h[..|h| - 1]) + h[|h| - 1]
  }

  /** Total number of pixels whose value is below `n`. */
  function CountBelow(s: seq<Byte>, n: nat): nat
    decreases n
  {
    if n == 0 then 0 else CountBelow(s, n - 1) + Count(s, n - 1)
  }

  /**
   * The histogram loop: one counter per byte value, each pixel of the
   * channel (in memory order) increments the counter of its value.
   */
  method Histogram(pixels: seq<Byte>) returns (histo: array<int>)
    ensures fresh(histo) && histo.Length == 256
    ensures forall v :: 0 <= v < 256 ==> histo[v] == Count(pixels, v)
    ensures Sum(histo[..]) == |pixels|
  {
    histo := new int[256](_ => 0);
    var i := 0;
    while i < |pixels|
      invariant 0 <= i <= |pixels|
      invariant forall v :: 0 <= v < 256 ==> histo[v] == Count(pixels[..i], v)
    {
      histo[pixels[i]] := histo[pixels[i]] + 1;
      assert pixels[..i + 1][..i] == pixels[..i];
      i := i + 1;
    }
    assert pixels[..i] == pixels;
    SumIsCountBelow(histo[..], pixels, 256);
    assert histo[..][..256] == histo[..];
    CountBelowAll(pixels);
  }

  /** A histogram whose first `n` entries are the counts sums to the pixels below `n`. */
  lemma {:induction false} SumIsCountBelow(h: seq<int>, s: seq<Byte>, n: nat)
    requires n <= |h|
    requires forall v :: 0 <= v < n ==> h[v] == Count(s, v)
    ensures Sum(h[..n]) == CountBelow(s, n)
    decreases n
  {
    if n > 0 {
      assert h[..n][..n - 1] == h[..n - 1];
      SumIsCountBelow(h, s, n - 1);
    }
  }

  /** Appending one pixel adds one to the count of every bound above its value. */
  lemma {:induction false} CountBelowSnoc(s: seq<Byte>, x: Byte, n: nat)
    ensures CountBelow(s + [x], n) == CountBelow(s, n) + (if x < n then 1 else 0)
    decreases n
  {
    if n > 0 {
      CountBelowSnoc(s, x, n - 1);
      assert (s + [x])[..|s + [x]| - 1] == s;
    }
  }

  /** Every pixel has a value below 256, so the counts add up to the pixel count. */
  lemma {:induction false} CountBelowAll(s: seq<Byte>)
    ensures CountBelow(s, 256) == |s|
    decreases |s|
  {
    if s != [] {
      var init, x := s[..|s| - 1], s[|s| - 1];
      assert s == init + [x];
      CountBelowAll(init);
      CountBelowSnoc(init, x, 256);
    } else {
      CountBelowNone(s, 256);
    }
  }

  /** No pixels, no counts. */
  lemma {:induction false} CountBelowNone(s: seq<Byte>, n: nat)
    requires s == []
    ensures CountBelow(s, n) == 0
    decreases n
  {
    if n > 0 {
      CountBelowNone(s, n - 1);
    }
  }

  /** The thresholding methods the keys select. */
  datatype ThresholdMethod = Otsu | OtsuInterval | Simple | SimpleInterval | Direct | Relative

  datatype Interval = Interval(from: real, to: real)

  /** The fields of the thresholding parameters the keys change. */
  datatype ThreshParams = ThreshParams(
    foreground: Interval,
    algorithm: ThresholdMethod,
    keepBackground: bool,
    keepForeground: bool)

  /** The loop's state: which end of the interval the arrows move, and the parameters. */
  datatype Tuning = Tuning(high: bool, par: ThreshParams)

  const IntervalStep: real := 0.01

  /** The loop starts by moving the low end. */
  function Start(par: ThreshParams): Tuning {
    Tuning(false, par)
  }

  /** The interval the arrows keep: 0 <= from <= to <= 1. */
  predicate Normal(i: Interval) {
    0.0 <= i.from <= i.to <= 1.0
  }

  /** The key that selects each method. */
  function MethodKey(m: ThresholdMethod): int {
    match m
    case Otsu => 'o' as int
    case OtsuInterval => 'O' as int
    case Simple => 's' as int
    case SimpleInterval => 'S' as int
    case Direct => 'd' as int
    case Relative => 'r' as int
  }

  predicate IsRaise(code: int) { code == UpKey || code == RightKey }
  predicate IsLower(code: int) { code == LeftKey || code == DownKey }

  /** Up or Right: move the selected end up, `to` capped at 1, `from` capped at `to`. */
  function Raise(t: Tuning): (r: Tuning)
    ensures r.high == t.high && r.par.(foreground := t.par.foreground) == t.par
    ensures Normal(t.par.foreground) ==>
              && Normal(r.par.foreground)
              && t.par.foreground.from <= r.par.foreground.from
              && t.par.foreground.to <= r.par.foreground.to
  {
    var fg := t.par.foreground;
    if t.high then
      var to := fg.to + IntervalStep;
      t.(par := t.par.(foreground := fg.(to := if to >= 1.0 then 1.0 else to)))
    else
      var from := fg.from + IntervalStep;
      t.(par := t.par.(foreground := fg.(from := if from >= fg.to then fg.to else from)))
  }

  /** Left or Down: move the selected end down, `to` floored at `from`, `from` floored at 0. */
  function Lower(t: Tuning): (r: Tuning)
    ensures r.high == t.high && r.par.(foreground := t.par.foreground) == t.par
    ensures Normal(t.par.foreground) ==>
              && Normal(r.par.foreground)
              && r.par.foreground.from <= t.par.foreground.from
              && r.par.foreground.to <= t.par.foreground.to
  {
    var fg := t.par.foreground;
    if t.high then
      var to := fg.to - IntervalStep;
      t.(par := t.par.(foreground := fg.(to := if to <= fg.from then fg.from else to)))
    else
      var from := fg.from - IntervalStep;
      t.(par := t.par.(foreground := fg.(from := if from < 0.0 then 0.0 else from)))
  }

  /** The effect of one event on the loop's state. */
  function Step(t: Tuning, e: Event): (r: Tuning)
    ensures r.par.foreground != t.par.foreground ==> e.Key? && (IsRaise(e.code) || IsLower(e.code))
    ensures r.high != t.high ==> e == Key('h' as int) || e == Key('l' as int)
    ensures r.par.algorithm != t.par.algorithm ==> e.Key? && e.code == MethodKey(r.par.algorithm)
  {
    match e
    case Key(k) =>
      if k == 'h' as int then t.(high := true)
      else if k == 'l' as int then t.(high := false)
      else if k == 'o' as int then t.(par := t.par.(algorithm := Otsu))
      else if k == 'O' as int then t.(par := t.par.(algorithm := OtsuInterval))
      else if k == 's' as int then t.(par := t.par.(algorithm := Simple))
      else if k == 'S' as int then t.(par := t.par.(algorithm := SimpleInterval))
      else if k == 'd' as int then t.(par := t.par.(algorithm := Direct))
      else if k == 'r' as int then t.(par := t.par.(algorithm := Relative))
      else if k == 'b' as int then t.(par := t.par.(keepBackground := !t.par.keepBackground))
      else if k == 'f' as int then t.(par := t.par.(keepForeground := !t.par.keepForeground))
      else if IsRaise(k) then Raise(t)
      else if IsLower(k) then Lower(t)
      else t
    case _ => t
  }

  /** The state after handling `events` in order. */
  function Replay(t: Tuning, events: seq<Event>): Tuning
    decreases |events|
  {
    if events == [] then t else Step(Replay(t, events[..|events| - 1]), events[|events| - 1])
  }

  /**
   * The interaction loop: wait for an event, update the selector or the
   * parameters, until the window is closed.
   */
  method Apply(init: ThreshParams, events: seq<Event>)
    returns (high: bool, thPar: ThreshParams, consumed: nat)
    ensures consumed == Served(events)
    ensures Tuning(high, thPar) == Replay(Start(init), events[..consumed])
    ensures Normal(init.foreground) ==> Normal(thPar.foreground)
  {
    high, thPar := false, init;
    consumed := 0;
    var closed := false;
    while !closed && consumed < |events|
      invariant consumed <= |events|
      invariant closed ==> 0 < consumed && events[consumed - 1] == Closed
      invariant forall j :: 0 <= j < consumed - 1 ==> events[j] != Closed
      invariant !closed ==> forall j :: 0 <= j < consumed ==> events[j] != Closed
      invariant Tuning(high, thPar) == Replay(Start(init), events[..consumed])
    {
      var action := events[consumed];
      if action.Key? {
        var k := action.code;
        if k == 'h' as int {
          high := true;
        } else if k == 'l' as int {
          high := false;
        } else if k == 'o' as int {
          thPar := thPar.(algorithm := Otsu);
        } else if k == 'O' as int {
          thPar := thPar.(algorithm := OtsuInterval);
        } else if k == 's' as int {
          thPar := thPar.(algorithm := Simple);
        } else if k == 'S' as int {
          thPar := thPar.(algorithm := SimpleInterval);
        } else if k == 'd' as int {
          thPar := thPar.(algorithm := Direct);
        } else if k == 'r' as int {
          thPar := thPar.(algorithm := Relative);
        } else if k == 'b' as int {
          thPar := thPar.(keepBackground := !thPar.keepBackground);
        } else if k == 'f' as int {
          thPar := thPar.(keepForeground := !thPar.keepForeground);
        } else if k == UpKey || k == RightKey {
          var fg := thPar.foreground;
          if high {
            fg := fg.(to := fg.to + IntervalStep);
            if fg.to >= 1.0 {
              fg := fg.(to := 1.0);
            }
          } else {
            fg := fg.(from := fg.from + IntervalStep);
            if fg.from >= fg.to {
              fg := fg.(from := fg.to);
            }
          }
          thPar := thPar.(foreground := fg);
        } else if k == LeftKey || k == DownKey {
          var fg := thPar.foreground;
          if high {
            fg := fg.(to := fg.to - IntervalStep);
            if fg.to <= fg.from {
              fg := fg.(to := fg.from);
            }
          } else {
            fg := fg.(from := fg.from - IntervalStep);
            if fg.from < 0.0 {
              fg := fg.(from := 0.0);
            }
          }
          thPar := thPar.(foreground := fg);
        }
      }
      assert events[..consumed + 1][..consumed] == events[..consumed];
      consumed := consumed + 1;
      closed := action == Closed;
    }
    if Normal(init.foreground) {
      ReplayKeepsInterval(Start(init), events[..consumed]);
    }
  }

  /** Every event keeps a normal interval normal. */
  lemma StepKeepsInterval(t: Tuning, e: Event)
    requires Normal(t.par.foreground)
    ensures Normal(Step(t, e).par.foreground)
  {
  }

  /** A whole run keeps a normal interval normal. */
  lemma {:induction false} ReplayKeepsInterval(t: Tuning, events: seq<Event>)
    requires Normal(t.par.foreground)
    ensures Normal(Replay(t, events).par.foreground)
    decreases |events|
  {
    if events != [] {
      ReplayKeepsInterval(t, events[..|events| - 1]);
      StepKeepsInterval(Replay(t, events[..|events| - 1]), events[|events| - 1]);
    }
  }

  /**
   * Arrows move only the selected end of the interval: `to` in high mode,
   * `from` in low mode; the selector, method and flags stay. Up acts as
   * Right and Down acts as Left.
   */
  lemma ArrowsMoveSelectedEnd(t: Tuning, code: int)
    requires IsRaise(code) || IsLower(code)
    ensures var t' := Step(t, Key(code));
      && t'.high == t.high
      && t'.par.algorithm == t.par.algorithm
      && t'.par.keepBackground == t.par.keepBackground
      && t'.par.keepForeground == t.par.keepForeground
      && (t.high ==> t'.par.foreground.from == t.par.foreground.from)
      && (!t.high ==> t'.par.foreground.to == t.par.foreground.to)
    ensures Step(t, Key(UpKey)) == Step(t, Key(RightKey))
    ensures Step(t, Key(DownKey)) == Step(t, Key(LeftKey))
  {
  }

  /** Within a normal interval, raising `to` by one step stays at most 1 and lowering it stays at least `from`. */
  lemma ArrowClamps(t: Tuning)
    requires Normal(t.par.foreground)
    ensures t.high ==> Raise(t).par.foreground.to == (if t.par.foreground.to + 0.01 >= 1.0 then 1.0 else t.par.foreground.to + 0.01)
    ensures t.high && t.par.foreground.to - 0.01 <= t.par.foreground.from ==>
              Lower(t).par.foreground.to == t.par.foreground.from
    ensures !t.high && t.par.foreground.from + 0.01 >= t.par.foreground.to ==>
              Raise(t).par.foreground.from == t.par.foreground.to
    ensures !t.high && t.par.foreground.from < 0.01 ==> Lower(t).par.foreground.from == 0.0
  {
  }

  /** 'h' and 'l' choose the end to move and change no parameter. */
  lemma SelectorKeys(t: Tuning)
    ensures Step(t, Key('h' as int)) == Tuning(true, t.par)
    ensures Step(t, Key('l' as int)) == Tuning(false, t.par)
  {
  }

  /** A method key sets that method and changes nothing else. */
  lemma MethodKeySetsMethod(t: Tuning, m: ThresholdMethod)
    ensures Step(t, Key(MethodKey(m))) == t.(par := t.par.(algorithm := m))
  {
  }

  /** 'b' and 'f' toggle their flag: pressing one twice restores the state. */
  lemma TogglesAreInvolutions(t: Tuning)
    ensures Step(t, Key('b' as int)).par.keepBackground == !t.par.keepBackground
    ensures Step(t, Key('f' as int)).par.keepForeground == !t.par.keepForeground
    ensures Step(Step(t, Key('b' as int)), Key('b' as int)) == t
    ensures Step(Step(t, Key('f' as int)), Key('f' as int)) == t
  {
  }

  /** '?', unassigned keys and non-key events leave the state unchanged. */
  lemma OtherEventsChangeNothing(t: Tuning, e: Event)
    requires e.Key? ==> e.code !in {'h' as int, 'l' as int, 'o' as int, 'O' as int, 's' as int, 'S' as int,
                                    'd' as int, 'r' as int, 'b' as int, 'f' as int,
                                    UpKey, RightKey, LeftKey, DownKey}
    ensures Step(t, e) == t
  {
  }
}
