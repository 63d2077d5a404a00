/**
 The eleven signals, and that none of them looks ahead. A frame is a list of columns, one
 a security, of one cell a day; the column operators follow pandas.
 */
module BacktestSignals {
  import opened Common
  import opened BacktestWeights
  import opened BacktestRun

  /** A float: missing (NaN), infinite, or a number. */
  datatype Cell = Missing | Infinite | Value(v: real)

  type Column = seq<Cell>
  type Frame = seq<Column>

  // --- one column ---

  function Map(c: Column, f: Cell -> Cell): Column { seq(|c|, t requires 0 <= t < |c| => f(c[t])) }

  function Zip(a: Column, b: Column, f: (Cell, Cell) -> Cell): Column
    requires |a| == |b|
  {
    seq(|a|, t requires 0 <= t < |a| => f(a[t], b[t]))
  }

  /** `shift(k)` for k days back. */
  function Shift(c: Column, k: nat): Column { seq(|c|, t requires 0 <= t < |c| => if t < k then Missing else c[t - k]) }

  predicate AllValues(c: Column) { forall x :: x in c ==> x.Value? }

  function Numbers(c: Column): seq<real>
    requires AllValues(c)
  {
    seq(|c|, t requires 0 <= t < |c| => assert c[t] in c; c[t].v)
  }

  /** A statistic of the last `w` days, missing until there are so many and all are known. */
  function Rolling(c: Column, w: nat, statistic: seq<real> -> Cell): Column
    requires w > 0
  {
    seq(|c|, t requires 0 <= t < |c| =>
      if t + 1 >= w && AllValues(c[t + 1 - w..t + 1]) then statistic(Numbers(c[t + 1 - w..t + 1])) else Missing)
  }

  /** The state of an exponential mean: its value, the weight that value has left, and the observations so far. */
  datatype Mean = Mean(value: Option<real>, weight: real, observations: nat)

  function Observe(m: Mean, x: Cell, alpha: real): Mean
    requires 0.0 < alpha <= 1.0 && m.weight >= 0.0
  {
    var faded := if m.value.Some? then m.weight * (1.0 - alpha) else m.weight;
    if !x.Value? then Mean(m.value, faded, m.observations)
    else if m.value.None? then Mean(Some(x.v), 1.0, m.observations + 1)
    else
      assert faded >= 0.0 by { Fades(m.weight, alpha); }
      Mean(Some((faded * m.value.value + alpha * x.v) / (faded + alpha)), 1.0, m.observations + 1)
  }

  lemma Fades(weight: real, alpha: real)
    requires weight >= 0.0 && 0.0 < alpha <= 1.0
    ensures weight * (1.0 - alpha) >= 0.0
  {}

  function MeanOf(c: Column, alpha: real): (m: Mean)
    requires 0.0 < alpha <= 1.0
    ensures m.weight >= 0.0
  {
    if c == [] then Mean(None, 1.0, 0)
    else
      var before := MeanOf(c[..|c| - 1], alpha);
      Fades(before.weight, alpha);
      Observe(before, c[|c| - 1], alpha)
  }

  /** `ewm(adjust=False, min_periods=least).mean()`: one pass over the days. */
  function Ewm(c: Column, alpha: real, least: nat): Column
    requires 0.0 < alpha <= 1.0
  {
    if c == [] then []
    else
      var m := MeanOf(c, alpha);
      Ewm(c[..|c| - 1], alpha, least)
      + [if m.observations >= least && m.value.Some? then Value(m.value.value) else Missing]
  }

  // --- cells ---

  function Div(a: Cell, b: Cell): Cell {
    if !a.Value? || b.Missing? then Missing
    else if b.Infinite? then Value(0.0)
    else if b.v != 0.0 then Value(a.v / b.v)
    else if a.v > 0.0 then Infinite
    else Missing
  }

  function Add(a: Cell, b: Cell): Cell { if a.Value? && b.Value? then Value(a.v + b.v) else Missing }
  function Sub(a: Cell, b: Cell): Cell { if a.Value? && b.Value? then Value(a.v - b.v) else Missing }
  function Multiplied(x: Cell, factor: real): Cell { if x.Value? then Value(x.v * factor) else x }
  function Plus(x: Cell, y: real): Cell { if x.Value? then Value(x.v + y) else x }
  function AtLeast(x: Cell, low: real): Cell { if x.Value? then Value(Greatest(x.v, low)) else x }
  function AtMost(x: Cell, high: real): Cell { if x.Value? then Value(Least(x.v, high)) else x }
  function ZeroMissing(x: Cell): Cell { if x == Value(0.0) then Missing else x }

  /** A day's relative change. */
  function Change(now: Cell, before: Cell): Cell { Plus(Div(now, before), -1.0) }

  function PctChange(c: Column, k: nat): Column { Zip(c, Shift(c, k), Change) }

  // --- statistics of a window ---

  function MeanStat(xs: seq<real>): Cell { if xs == [] then Missing else Value(Total(xs) / (|xs| as real)) }

  function Squares(xs: seq<real>, mean: real): real {
    if xs == [] then 0.0
    else
      var d := xs[|xs| - 1] - mean;
      Squares(xs[..|xs| - 1], mean) + d * d
  }

  /** Square root is a parameter: nothing below depends on its values. */
  type Root = real -> real

  function StdStat(xs: seq<real>, root: Root): Cell {
    if |xs| < 2 then Missing
    else Value(root(Squares(xs, Total(xs) / (|xs| as real)) / (|xs| as real - 1.0)))
  }

  function MaxStat(xs: seq<real>): Cell {
    if xs == [] then Missing
    else if |xs| == 1 then Value(xs[0])
    else
      var before := MaxStat(xs[..|xs| - 1]);
      AtLeast(before, xs[|xs| - 1])
  }

  function MinStat(xs: seq<real>): Cell {
    if xs == [] then Missing
    else if |xs| == 1 then Value(xs[0])
    else
      var before := MinStat(xs[..|xs| - 1]);
      AtMost(before, xs[|xs| - 1])
  }

  // --- the signals of one security ---

  function Volatility(close: Column, s: Settings, root: Root): Column
    requires s.slow > 0
  {
    Rolling(PctChange(close, 1), s.slow, xs => StdStat(xs, root))
  }

  function Sma(close: Column, s: Settings): Column
    requires s.slow > 0 && s.fast > 0
  {
    Zip(Rolling(close, s.fast, MeanStat), Rolling(close, s.slow, MeanStat), Change)
  }

  /** The relative strength, from mean gain and mean loss. */
  function Strength(gain: Cell, loss: Cell): Cell {
    if gain == Value(0.0) && loss == Value(0.0) then Value(50.0)
    else if loss == Value(0.0) && gain.Value? && gain.v > 0.0 then Value(100.0)
    else Plus(Multiplied(Div(Value(100.0), Plus(Div(gain, ZeroMissing(loss)), 1.0)), -1.0), 100.0)
  }

  function FromStrength(rsi: Cell): Cell {
    Multiplied(Sub(AtLeast(Plus(Multiplied(rsi, -1.0), 30.0), 0.0), AtLeast(Plus(rsi, -70.0), 0.0)), 0.01)
  }

  function Rsi(close: Column, s: Settings): (signal: Column)
    requires s.fast > 0
    ensures |signal| == |close|
  {
    var change := Zip(close, Shift(close, 1), Sub);
    var alpha := 1.0 / (s.fast as real);
    assert 0.0 < alpha <= 1.0 by { Fraction(s.fast); }
    var gain := Ewm(Map(change, x => AtLeast(x, 0.0)), alpha, s.fast);
    var loss := Map(Ewm(Map(change, x => AtMost(x, 0.0)), alpha, s.fast), x => Multiplied(x, -1.0));
    EwmLength(Map(change, x => AtLeast(x, 0.0)), alpha, s.fast);
    EwmLength(Map(change, x => AtMost(x, 0.0)), alpha, s.fast);
    Map(Zip(gain, loss, Strength), FromStrength)
  }

  /** `ewm(span=...)`. */
  function Span(span: nat): (alpha: real)
    requires span > 0
    ensures 0.0 < alpha <= 1.0
  {
    Fraction(span + 1);
    2.0 / (span as real + 1.0)
  }

  function Macd(close: Column, s: Settings): (signal: Column)
    requires s.slow > 0 && s.fast > 0
    ensures |signal| == |close|
  {
    EwmLength(close, Span(s.fast), s.fast);
    EwmLength(close, Span(s.slow), s.slow);
    var macd := Zip(Ewm(close, Span(s.fast), s.fast), Ewm(close, Span(s.slow), s.slow), Sub);
    EwmLength(macd, Span(9), 9);
    Zip(macd, Ewm(macd, Span(9), 9), Sub)
  }

  function Breakout(close: Column, s: Settings): Column
    requires s.slow > 0
  {
    var high := Shift(Rolling(close, s.slow, MaxStat), 1);
    var low := Shift(Rolling(close, s.slow, MinStat), 1);
    Zip(Map(Zip(close, high, Change), x => AtLeast(x, 0.0)), Map(Zip(close, low, Change), x => AtMost(x, 0.0)), Add)
  }

  function MeanReversion(close: Column, s: Settings): Column
    requires s.slow > 0
  {
    Map(Zip(close, Rolling(close, s.slow, MeanStat), Change), x => Multiplied(x, -1.0))
  }

  function InverseVol(close: Column, s: Settings, root: Root): Column
    requires s.slow > 0
  {
    Map(Volatility(close, s, root), x => Div(Value(1.0), ZeroMissing(x)))
  }

  lemma Fraction(n: nat)
    requires n > 0
    ensures 0.0 < 1.0 / (n as real) <= 1.0
    ensures n > 1 ==> 0.0 < 2.0 / (n as real) <= 1.0
  {}

  lemma {:induction false} EwmLength(c: Column, alpha: real, least: nat)
    requires 0.0 < alpha <= 1.0
    ensures |Ewm(c, alpha, least)| == |c|
    decreases |c|
  {
    if c != [] { EwmLength(c[..|c| - 1], alpha, least); }
  }

  // --- across securities ---

  /** All columns cover the same days. */
  predicate Rectangular(f: Frame, days: nat) { forall i :: 0 <= i < |f| ==> |f[i]| == days }

  function Cut(f: Frame, days: nat): Frame
    requires forall i :: 0 <= i < |f| ==> days <= |f[i]|
  {
    seq(|f|, i requires 0 <= i < |f| => f[i][..days])
  }

  function RowAt(f: Frame, days: nat, t: nat): seq<Cell>
    requires Rectangular(f, days) && t < days
  {
    seq(|f|, i requires 0 <= i < |f| => f[i][t])
  }

  predicate Below(a: Cell, b: Cell) { a.Value? && ((b.Value? && a.v < b.v) || b.Infinite?) }

  function CountBelow(row: seq<Cell>, x: Cell): nat {
    if row == [] then 0
    else CountBelow(row[..|row| - 1], x) + (if Below(row[|row| - 1], x) then 1 else 0)
  }

  function CountEqual(row: seq<Cell>, x: Cell): nat {
    if row == [] then 0
    else CountEqual(row[..|row| - 1], x) + (if row[|row| - 1] == x then 1 else 0)
  }

  function CountKnown(row: seq<Cell>): nat {
    if row == [] then 0
    else CountKnown(row[..|row| - 1]) + (if row[|row| - 1].Missing? then 0 else 1)
  }

  /** `rank(axis=1, pct=True)`: the average rank among equals, as a share of the known cells of the day. */
  function RankIn(row: seq<Cell>, x: Cell): Cell {
    if x.Missing? || CountKnown(row) == 0 then Missing
    else
      Value((CountBelow(row, x) as real + (CountEqual(row, x) as real + 1.0) / 2.0) / (CountKnown(row) as real))
  }

  function RanksOf(f: Frame, days: nat, i: nat): Column
    requires Rectangular(f, days) && i < |f|
  {
    seq(days, t requires 0 <= t < days => RankIn(RowAt(f, days, t), f[i][t]))
  }

  function MultiFactor(momentum: Cell, calm: Cell): Cell { Plus(Multiplied(Add(momentum, calm), 0.5), -0.5) }

  function MultiFactors(momentum: Frame, calm: Frame, days: nat): Frame
    requires |momentum| == |calm| && Rectangular(momentum, days) && Rectangular(calm, days)
  {
    seq(|momentum|, i requires 0 <= i < |momentum| =>
      Zip(RanksOf(momentum, days, i), RanksOf(calm, days, i), MultiFactor))
  }

  /** The signal of one security, for the strategies that look at each on its own. */
  function OwnSignal(close: Column, s: Settings, root: Root): Column
    requires s.Valid()
  {
    match s.strategy
    case SMA => Sma(close, s)
    case RSI => Rsi(close, s)
    case MACD => Macd(close, s)
    case BREAKOUT => Breakout(close, s)
    case MEAN_REVERSION => MeanReversion(close, s)
    case LOW_VOL => InverseVol(close, s, root)
    case INVERSE_VOL => InverseVol(close, s, root)
    case RISK_PARITY => InverseVol(close, s, root)
    case _ => PctChange(close, s.slow)
  }

  function Calm(close: Column, s: Settings, root: Root): Column
    requires s.slow > 0
  {
    Map(Volatility(close, s, root), x => Div(Value(1.0), x))
  }

  lemma OwnLength(close: Column, s: Settings, root: Root)
    requires s.Valid()
    ensures |OwnSignal(close, s, root)| == |close|
  {}

  function Changes(close: Frame, k: nat): Frame { seq(|close|, i requires 0 <= i < |close| => PctChange(close[i], k)) }

  function Volatilities(close: Frame, s: Settings, root: Root): Frame
    requires s.slow > 0
  {
    seq(|close|, i requires 0 <= i < |close| => Volatility(close[i], s, root))
  }

  function Calms(close: Frame, s: Settings, root: Root): Frame
    requires s.slow > 0
  {
    seq(|close|, i requires 0 <= i < |close| => Calm(close[i], s, root))
  }

  function OwnSignals(close: Frame, s: Settings, root: Root): Frame
    requires s.Valid()
  {
    seq(|close|, i requires 0 <= i < |close| => OwnSignal(close[i], s, root))
  }

  function SignalOf(close: Frame, days: nat, s: Settings, root: Root): Frame
    requires s.Valid() && Rectangular(close, days)
  {
    if s.strategy == MULTIFACTOR then MultiFactors(Changes(close, s.slow), Calms(close, s, root), days)
    else OwnSignals(close, s, root)
  }

  /** What `signals_for` returns: signal, daily returns, volatility. */
  function SignalsFor(close: Frame, days: nat, s: Settings, root: Root): (Frame, Frame, Frame)
    requires s.Valid() && Rectangular(close, days)
  {
    (SignalOf(close, days, s, root), Changes(close, 1), Volatilities(close, s, root))
  }

  // --- no operator looks ahead ---

  lemma MapCut(c: Column, f: Cell -> Cell, n: nat)
    requires n <= |c|
    ensures Map(c[..n], f) == Map(c, f)[..n]
  {}

  lemma ZipCut(a: Column, b: Column, f: (Cell, Cell) -> Cell, n: nat)
    requires |a| == |b| && n <= |a|
    ensures Zip(a[..n], b[..n], f) == Zip(a, b, f)[..n]
  {}

  lemma ShiftCut(c: Column, k: nat, n: nat)
    requires n <= |c|
    ensures Shift(c[..n], k) == Shift(c, k)[..n]
  {}

  lemma PctChangeCut(c: Column, k: nat, n: nat)
    requires n <= |c|
    ensures |PctChange(c, k)| == |c| && PctChange(c[..n], k) == PctChange(c, k)[..n]
  {}

  lemma RollingCut(c: Column, w: nat, statistic: seq<real> -> Cell, n: nat)
    requires n <= |c| && w > 0
    ensures Rolling(c[..n], w, statistic) == Rolling(c, w, statistic)[..n]
  {
    forall t | 0 <= t < n ensures Rolling(c[..n], w, statistic)[t] == Rolling(c, w, statistic)[t] {
      if t + 1 >= w { assert c[..n][t + 1 - w..t + 1] == c[t + 1 - w..t + 1]; }
    }
  }

  lemma {:induction false} EwmCut(c: Column, alpha: real, least: nat, n: nat)
    requires n <= |c| && 0.0 < alpha <= 1.0
    ensures |Ewm(c, alpha, least)| == |c| && Ewm(c[..n], alpha, least) == Ewm(c, alpha, least)[..n]
    decreases |c|
  {
    EwmLength(c, alpha, least);
    EwmLength(c[..n], alpha, least);
    if n < |c| {
      EwmCut(c[..|c| - 1], alpha, least, n);
      assert c[..|c| - 1][..n] == c[..n];
    } else {
      assert c[..n] == c;
    }
  }

  lemma VolatilityCut(c: Column, s: Settings, root: Root, n: nat)
    requires n <= |c| && s.slow > 0
    ensures |Volatility(c, s, root)| == |c| && Volatility(c[..n], s, root) == Volatility(c, s, root)[..n]
    ensures |Calm(c, s, root)| == |c| && Calm(c[..n], s, root) == Calm(c, s, root)[..n]
  {
    PctChangeCut(c, 1, n);
    RollingCut(PctChange(c, 1), s.slow, xs => StdStat(xs, root), n);
  }

  lemma SmaCut(c: Column, s: Settings, n: nat)
    requires n <= |c| && s.slow > 0 && s.fast > 0
    ensures Sma(c[..n], s) == Sma(c, s)[..n]
  {
    RollingCut(c, s.fast, MeanStat, n);
    RollingCut(c, s.slow, MeanStat, n);
  }

  lemma RsiCut(c: Column, s: Settings, n: nat)
    requires n <= |c| && s.fast > 0
    ensures Rsi(c[..n], s) == Rsi(c, s)[..n]
  {
    var change := Zip(c, Shift(c, 1), Sub);
    var up, down := Map(change, x => AtLeast(x, 0.0)), Map(change, x => AtMost(x, 0.0));
    var alpha := 1.0 / (s.fast as real);
    Fraction(s.fast);
    ShiftCut(c, 1, n);
    ZipCut(c, Shift(c, 1), Sub, n);
    MapCut(change, x => AtLeast(x, 0.0), n);
    MapCut(change, x => AtMost(x, 0.0), n);
    EwmCut(up, alpha, s.fast, n);
    EwmCut(down, alpha, s.fast, n);
    var gain, lost := Ewm(up, alpha, s.fast), Ewm(down, alpha, s.fast);
    MapCut(lost, x => Multiplied(x, -1.0), n);
    var loss := Map(lost, x => Multiplied(x, -1.0));
    ZipCut(gain, loss, Strength, n);
    MapCut(Zip(gain, loss, Strength), FromStrength, n);
  }

  lemma MacdCut(c: Column, s: Settings, n: nat)
    requires n <= |c| && s.slow > 0 && s.fast > 0
    ensures Macd(c[..n], s) == Macd(c, s)[..n]
  {
    EwmCut(c, Span(s.fast), s.fast, n);
    EwmCut(c, Span(s.slow), s.slow, n);
    var macd := Zip(Ewm(c, Span(s.fast), s.fast), Ewm(c, Span(s.slow), s.slow), Sub);
    ZipCut(Ewm(c, Span(s.fast), s.fast), Ewm(c, Span(s.slow), s.slow), Sub, n);
    EwmCut(macd, Span(9), 9, n);
    ZipCut(macd, Ewm(macd, Span(9), 9), Sub, n);
  }

  lemma BreakoutCut(c: Column, s: Settings, n: nat)
    requires n <= |c| && s.slow > 0
    ensures Breakout(c[..n], s) == Breakout(c, s)[..n]
  {
    RollingCut(c, s.slow, MaxStat, n);
    RollingCut(c, s.slow, MinStat, n);
    ShiftCut(Rolling(c, s.slow, MaxStat), 1, n);
    ShiftCut(Rolling(c, s.slow, MinStat), 1, n);
    var high, low := Shift(Rolling(c, s.slow, MaxStat), 1), Shift(Rolling(c, s.slow, MinStat), 1);
    ZipCut(c, high, Change, n);
    ZipCut(c, low, Change, n);
    MapCut(Zip(c, high, Change), x => AtLeast(x, 0.0), n);
    MapCut(Zip(c, low, Change), x => AtMost(x, 0.0), n);
  }

  lemma MeanReversionCut(c: Column, s: Settings, n: nat)
    requires n <= |c| && s.slow > 0
    ensures MeanReversion(c[..n], s) == MeanReversion(c, s)[..n]
  {
    RollingCut(c, s.slow, MeanStat, n);
    ZipCut(c, Rolling(c, s.slow, MeanStat), Change, n);
  }

  /** Every strategy's own signal of the first `n` days depends on the first `n` days only. */
  lemma OwnSignalCut(c: Column, s: Settings, root: Root, n: nat)
    requires n <= |c| && s.Valid()
    ensures |OwnSignal(c, s, root)| == |c| && OwnSignal(c[..n], s, root) == OwnSignal(c, s, root)[..n]
  {
    OwnLength(c, s, root);
    match s.strategy {
      case SMA => SmaCut(c, s, n);
      case RSI => RsiCut(c, s, n);
      case MACD => MacdCut(c, s, n);
      case BREAKOUT => BreakoutCut(c, s, n);
      case MEAN_REVERSION => MeanReversionCut(c, s, n);
      case LOW_VOL => VolatilityCut(c, s, root, n);
      case INVERSE_VOL => VolatilityCut(c, s, root, n);
      case RISK_PARITY => VolatilityCut(c, s, root, n);
      case _ => PctChangeCut(c, s.slow, n);
    }
  }

  lemma RanksCut(f: Frame, days: nat, i: nat, n: nat)
    requires Rectangular(f, days) && i < |f| && n <= days
    ensures Rectangular(Cut(f, n), n) && RanksOf(Cut(f, n), n, i) == RanksOf(f, days, i)[..n]
  {
    forall t | 0 <= t < n ensures RowAt(Cut(f, n), n, t) == RowAt(f, days, t) {}
  }

  lemma ChangesCut(close: Frame, days: nat, k: nat, n: nat)
    requires Rectangular(close, days) && n <= days
    ensures Rectangular(Changes(close, k), days) && Changes(Cut(close, n), k) == Cut(Changes(close, k), n)
  {
    hide PctChange;
    forall i | 0 <= i < |close| ensures
      |PctChange(close[i], k)| == days && PctChange(close[i][..n], k) == PctChange(close[i], k)[..n]
    {
      PctChangeCut(close[i], k, n);
    }
  }

  lemma VolatilitiesCut(close: Frame, days: nat, s: Settings, root: Root, n: nat)
    requires Rectangular(close, days) && n <= days && s.slow > 0
    ensures Rectangular(Volatilities(close, s, root), days) && Rectangular(Calms(close, s, root), days)
    ensures Volatilities(Cut(close, n), s, root) == Cut(Volatilities(close, s, root), n)
    ensures Calms(Cut(close, n), s, root) == Cut(Calms(close, s, root), n)
  {
    hide Volatility, Calm;
    forall i | 0 <= i < |close| ensures
      |Volatility(close[i], s, root)| == |Calm(close[i], s, root)| == days
      && Volatility(close[i][..n], s, root) == Volatility(close[i], s, root)[..n]
      && Calm(close[i][..n], s, root) == Calm(close[i], s, root)[..n]
    {
      VolatilityCut(close[i], s, root, n);
    }
  }

  lemma OwnSignalsCut(close: Frame, days: nat, s: Settings, root: Root, n: nat)
    requires Rectangular(close, days) && n <= days && s.Valid()
    ensures Rectangular(OwnSignals(close, s, root), days)
    ensures OwnSignals(Cut(close, n), s, root) == Cut(OwnSignals(close, s, root), n)
  {
    hide OwnSignal;
    forall i | 0 <= i < |close| ensures
      |OwnSignal(close[i], s, root)| == days
      && OwnSignal(close[i][..n], s, root) == OwnSignal(close[i], s, root)[..n]
    {
      OwnSignalCut(close[i], s, root, n);
    }
  }

  lemma MultiFactorsCut(momentum: Frame, calm: Frame, days: nat, n: nat)
    requires |momentum| == |calm| && Rectangular(momentum, days) && Rectangular(calm, days) && n <= days
    ensures Rectangular(MultiFactors(momentum, calm, days), days)
    ensures MultiFactors(Cut(momentum, n), Cut(calm, n), n) == Cut(MultiFactors(momentum, calm, days), n)
  {
    forall i | 0 <= i < |momentum| ensures
      MultiFactors(Cut(momentum, n), Cut(calm, n), n)[i] == MultiFactors(momentum, calm, days)[i][..n]
    {
      RanksCut(momentum, days, i, n);
      RanksCut(calm, days, i, n);
      ZipCut(RanksOf(momentum, days, i), RanksOf(calm, days, i), MultiFactor, n);
    }
  }

  /**
   No look-ahead: for every strategy, forgetting all prices after the first `n` days leaves
   signal, returns and volatility of those days as they were.
   */
  lemma NoLookAhead(close: Frame, days: nat, s: Settings, root: Root, n: nat)
    requires s.Valid() && Rectangular(close, days) && n <= days
    ensures Rectangular(Cut(close, n), n)
    ensures var (signal, daily, vol) := SignalsFor(close, days, s, root);
      && Rectangular(signal, days) && Rectangular(daily, days) && Rectangular(vol, days)
      && SignalsFor(Cut(close, n), n, s, root) == (Cut(signal, n), Cut(daily, n), Cut(vol, n))
  {
    hide Changes, Volatilities, Calms, OwnSignals, MultiFactors;
    ChangesCut(close, days, 1, n);
    ChangesCut(close, days, s.slow, n);
    VolatilitiesCut(close, days, s, root, n);
    OwnSignalsCut(close, days, s, root, n);
    SameHeight(close, s, root);
    if s.strategy == MULTIFACTOR {
      MultiFactorsCut(Changes(close, s.slow), Calms(close, s, root), days, n);
    }
  }

  lemma SameHeight(close: Frame, s: Settings, root: Root)
    requires s.slow > 0
    ensures |Changes(close, s.slow)| == |Calms(close, s, root)| == |close|
  {}

  // --- hence the decisions ---

  type Trailing = seq<seq<Cell>>

  function Number(x: Cell): Option<real> { if x.Value? then Some(x.v) else None }

  /** A day's row under the securities' names. */
  function Labelled(names: seq<string>, f: Frame, days: nat, t: nat): seq<(string, Option<real>)>
    requires |names| == |f| && Rectangular(f, days) && t < days
  {
    seq(|f|, i requires 0 <= i < |f| => (names[i], Number(f[i][t])))
  }

  /** A row as a lookup by name. */
  function ByName(row: seq<(string, Option<real>)>): map<string, Option<real>> {
    if row == [] then map[] else ByName(row[..|row| - 1])[row[|row| - 1].0 := row[|row| - 1].1]
  }

  /** `returns.loc[:day].tail(slow)`. */
  function Tail(f: Frame, days: nat, t: nat, slow: nat): Trailing
    requires Rectangular(f, days) && t < days
  {
    var from := if t + 1 < slow then 0 else t + 1 - slow;
    seq(t + 1 - from, k requires 0 <= k < t + 1 - from => RowAt(f, days, from + k))
  }

  /** The weights that the strategy would choose on day `t`. */
  function WeightsOn(
    names: seq<string>, close: Frame, days: nat, s: Settings, root: Root, optimise: Trailing -> Parity, t: nat)
    : seq<Entry>
    requires s.Valid() && |names| == |close| && Rectangular(close, days) && t < days
  {
    NoLookAhead(close, days, s, root, days);
    var (signal, daily, vol) := SignalsFor(close, days, s, root);
    SameWidth(close, days, s, root);
    TargetWeights(
      Labelled(names, signal, days, t), ByName(Labelled(names, vol, days, t)),
      optimise(Tail(daily, days, t, s.slow)), s)
  }

  lemma SameWidth(close: Frame, days: nat, s: Settings, root: Root)
    requires s.Valid() && Rectangular(close, days)
    ensures var (signal, daily, vol) := SignalsFor(close, days, s, root);
      |signal| == |daily| == |vol| == |close|
  {}

  lemma RowsCut(names: seq<string>, f: Frame, days: nat, n: nat, t: nat, slow: nat)
    requires |names| == |f| && Rectangular(f, days) && t < n <= days
    ensures Rectangular(Cut(f, n), n)
    ensures Labelled(names, Cut(f, n), n, t) == Labelled(names, f, days, t)
    ensures Tail(Cut(f, n), n, t, slow) == Tail(f, days, t, slow)
  {
    var from := if t + 1 < slow then 0 else t + 1 - slow;
    forall u | from <= u <= t ensures RowAt(Cut(f, n), n, u) == RowAt(f, days, u) {}
  }

  /**
   What will happen after day `t` does not touch the weights chosen on day `t`: two
   histories that agree up to it choose alike.
   */
  lemma DecisionsDoNotLookAhead(
    names: seq<string>, close: Frame, days: nat, other: Frame, otherDays: nat, s: Settings, root: Root,
    optimise: Trailing -> Parity, t: nat)
    requires s.Valid() && |names| == |close| == |other|
    requires Rectangular(close, days) && Rectangular(other, otherDays) && t < days && t < otherDays
    requires Cut(close, t + 1) == Cut(other, t + 1)
    ensures WeightsOn(names, close, days, s, root, optimise, t)
         == WeightsOn(names, other, otherDays, s, root, optimise, t)
  {
    CutDecision(names, close, days, s, root, optimise, t);
    CutDecision(names, other, otherDays, s, root, optimise, t);
  }

  lemma CutDecision(
    names: seq<string>, close: Frame, days: nat, s: Settings, root: Root, optimise: Trailing -> Parity, t: nat)
    requires s.Valid() && |names| == |close| && Rectangular(close, days) && t < days
    ensures Rectangular(Cut(close, t + 1), t + 1)
    ensures WeightsOn(names, Cut(close, t + 1), t + 1, s, root, optimise, t)
      == WeightsOn(names, close, days, s, root, optimise, t)
  {
    hide TargetWeights, SignalsFor, Labelled, ByName, Tail;
    var (signal, daily, vol) := SignalsFor(close, days, s, root);
    NoLookAhead(close, days, s, root, t + 1);
    SameWidth(close, days, s, root);
    RowsCut(names, signal, days, t + 1, t, s.slow);
    RowsCut(names, daily, days, t + 1, t, s.slow);
    RowsCut(names, vol, days, t + 1, t, s.slow);
  }
}
