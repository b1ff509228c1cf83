/** The indicator formulas of utils/technical_indicators.py over a `Close`
    series: RSI, Bollinger Bands and MACD, each as a column of the same
    length as `Close`, NaN (`None`) where pandas leaves the cell undefined. */
module Indicators {
  import opened Series

  /** The default parameters of the three indicator functions. */
  const RsiWindow: nat := 14
  const BollingerWindow: nat := 20
  const MacdShort: nat := 12
  const MacdLong: nat := 26
  const MacdSignal: nat := 9

  // ---------------------------------------------------------------------
  // Column arithmetic: a NaN operand makes the result NaN

  function AddCells(a: Option<real>, b: Option<real>): (r: Option<real>)
    ensures r.Some? <==> a.Some? && b.Some?
  {
    if a.Some? && b.Some? then Some(a.value + b.value) else None
  }

  function SubCells(a: Option<real>, b: Option<real>): (r: Option<real>)
    ensures r.Some? <==> a.Some? && b.Some?
  {
    if a.Some? && b.Some? then Some(a.value - b.value) else None
  }

  function ScaleCell(a: Option<real>, k: real): (r: Option<real>)
    ensures r.Some? <==> a.Some?
  {
    if a.Some? then Some(a.value * k) else None
  }

  // ---------------------------------------------------------------------
  // RSI

  /** `Close.diff(1)`: the change from the previous close, NaN at index 0. */
  function Diff(close: seq<real>): (delta: seq<Option<real>>)
    ensures |delta| == |close|
  {
    seq(|close|, i requires 0 <= i < |close| =>
      if i == 0 then None else Some(close[i] - close[i - 1]))
  }

  /** `delta.where(delta > 0, 0)` on one cell. A NaN fails `> 0`, so it
      becomes 0 like every non-positive change. */
  function GainOf(delta: Option<real>): (gain: real)
    ensures gain >= 0.0
    ensures gain > 0.0 <==> delta.Some? && delta.value > 0.0
    ensures gain > 0.0 ==> gain == delta.value
  {
    if delta.Some? && delta.value > 0.0 then delta.value else 0.0
  }

  /** `-delta.where(delta < 0, 0)` on one cell. */
  function LossOf(delta: Option<real>): (loss: real)
    ensures loss >= 0.0
    ensures loss > 0.0 <==> delta.Some? && delta.value < 0.0
    ensures loss > 0.0 ==> loss == -delta.value
  {
    -(if delta.Some? && delta.value < 0.0 then delta.value else 0.0)
  }

  /** The `gain` column: the rise from the previous close, 0 where the
      close fell or stayed, and 0 in the first row. */
  function Gain(close: seq<real>): (gain: seq<real>)
    ensures |gain| == |close|
    ensures |close| > 0 ==> gain[0] == 0.0
    ensures forall i | 0 < i < |close| ::
      gain[i] == if close[i] > close[i - 1] then close[i] - close[i - 1] else 0.0
  {
    seq(|close|, i requires 0 <= i < |close| => GainOf(Diff(close)[i]))
  }

  /** The `loss` column: the fall from the previous close as a positive
      amount, 0 where the close rose or stayed, and 0 in the first row. */
  function Loss(close: seq<real>): (loss: seq<real>)
    ensures |loss| == |close|
    ensures |close| > 0 ==> loss[0] == 0.0
    ensures forall i | 0 < i < |close| ::
      loss[i] == if close[i] < close[i - 1] then close[i - 1] - close[i] else 0.0
  {
    seq(|close|, i requires 0 <= i < |close| => LossOf(Diff(close)[i]))
  }

  /** Gains and losses split each change: both are non-negative, at most one
      is non-zero, their difference gives the change back, and at index 0
      (where the change is NaN) both are 0. */
  lemma GainLossSplit(close: seq<real>, i: nat)
    requires i < |close|
    ensures Gain(close)[i] >= 0.0 && Loss(close)[i] >= 0.0
    ensures Gain(close)[i] == 0.0 || Loss(close)[i] == 0.0
    ensures i == 0 ==> Gain(close)[i] == 0.0 && Loss(close)[i] == 0.0
    ensures i > 0 ==> Gain(close)[i] - Loss(close)[i] == close[i] - close[i - 1]
  {
  }

  lemma GainLossNonNegative(close: seq<real>)
    ensures forall j | 0 <= j < |close| :: Gain(close)[j] >= 0.0 && Loss(close)[j] >= 0.0
  {
    forall j | 0 <= j < |close|
      ensures Gain(close)[j] >= 0.0 && Loss(close)[j] >= 0.0
    {
      GainLossSplit(close, j);
    }
  }

  /** `gain.rolling(window).mean()` and `loss.rolling(window).mean()`:
      undefined until a full window exists, never negative after. */
  function AverageGain(close: seq<real>, window: nat): (avg: seq<Option<real>>)
    requires window >= 1
    ensures |avg| == |close|
    ensures forall i | 0 <= i < |avg| :: avg[i].Some? <==> i + 1 >= window
    ensures forall i | 0 <= i < |avg| && avg[i].Some? :: avg[i].value >= 0.0
  {
    GainLossNonNegative(close);
    RollingMeanNonNegativeAll(Gain(close), window);
    RollingMean(Gain(close), window)
  }

  function AverageLoss(close: seq<real>, window: nat): (avg: seq<Option<real>>)
    requires window >= 1
    ensures |avg| == |close|
    ensures forall i | 0 <= i < |avg| :: avg[i].Some? <==> i + 1 >= window
    ensures forall i | 0 <= i < |avg| && avg[i].Some? :: avg[i].value >= 0.0
  {
    GainLossNonNegative(close);
    RollingMeanNonNegativeAll(Loss(close), window);
    RollingMean(Loss(close), window)
  }

  lemma AveragesNonNegative(close: seq<real>, window: nat, i: nat)
    requires window >= 1 && i < |close|
    ensures AverageGain(close, window)[i].Some? ==> AverageGain(close, window)[i].value >= 0.0
    ensures AverageLoss(close, window)[i].Some? ==> AverageLoss(close, window)[i].value >= 0.0
  {
    GainLossNonNegative(close);
    RollingMeanNonNegative(Gain(close), window, i);
    RollingMeanNonNegative(Loss(close), window, i);
  }

  /** The outcome of a floating-point division `a / b`. */
  datatype Quotient = Finite(value: real) | PositiveInfinity | NegativeInfinity | NotANumber

  /** IEEE 754 division of two cells: NaN in, NaN out; a non-zero numerator
      over zero is an infinity of its sign; 0 / 0 is NaN. */
  function Divide(a: Option<real>, b: Option<real>): (q: Quotient)
    ensures q.Finite? <==> a.Some? && b.Some? && b.value != 0.0
    ensures q.NotANumber? <==> a.None? || b.None? || (a.value == 0.0 && b.value == 0.0)
  {
    if a.None? || b.None? then NotANumber
    else if b.value != 0.0 then Finite(a.value / b.value)
    else if a.value > 0.0 then PositiveInfinity
    else if a.value < 0.0 then NegativeInfinity
    else NotANumber
  }

  /** `100 - (100 / (1 + rs))` on one cell. An infinite `rs` of either sign
      makes `100 / (1 + rs)` zero, so the result is 100; NaN stays NaN. A
      finite `rs` here is never negative, so `1 + rs` is never zero. */
  function RsiOf(rs: Quotient): (rsi: Option<real>)
    requires rs.Finite? ==> rs.value >= 0.0
    ensures rsi.Some? <==> !rs.NotANumber?
    ensures rsi.Some? ==> 0.0 <= rsi.value <= 100.0
    ensures rs.PositiveInfinity? || rs.NegativeInfinity? ==> rsi == Some(100.0)
    ensures rs.Finite? && rs.value == 0.0 ==> rsi == Some(0.0)
  {
    match rs
    case Finite(r) => HundredOverOnePlus(r); Some(100.0 - 100.0 / (1.0 + r))
    case PositiveInfinity => Some(100.0)
    case NegativeInfinity => Some(100.0)
    case NotANumber => None
  }

  /** For a ratio `r >= 0`, `100 / (1 + r)` lies in (0, 100]. */
  lemma HundredOverOnePlus(r: real)
    requires r >= 0.0
    ensures 0.0 < 100.0 / (1.0 + r) <= 100.0
  {
    var q := 100.0 / (1.0 + r);
    DivMul(100.0, 1.0 + r);
    assert q * (1.0 + r) == 100.0;
  }

  /** The RSI cell at index `i`, from the two averages at `i`: undefined
      in the first `window - 1` rows, and within [0, 100] wherever defined. */
  function RsiAt(close: seq<real>, window: nat, i: nat): (rsi: Option<real>)
    requires window >= 1 && i < |close|
    ensures i + 1 < window ==> rsi == None
    ensures rsi.Some? ==> 0.0 <= rsi.value <= 100.0
  {
    var g, l := AverageGain(close, window)[i], AverageLoss(close, window)[i];
    AveragesNonNegative(close, window, i);
    RsiOf(Divide(g, l))
  }

  /** `calculate_rsi`: the `RSI` column. */
  function Rsi(close: seq<real>, window: nat): (rsi: seq<Option<real>>)
    requires window >= 1
    ensures |rsi| == |close|
  {
    seq(|close|, i requires 0 <= i < |close| => RsiAt(close, window, i))
  }

  lemma DivMul(a: real, b: real)
    requires b != 0.0
    ensures (a / b) * b == a
  {
  }

  lemma DivUnique(a: real, b: real, x: real)
    requires b != 0.0 && x * b == a
    ensures x == a / b
  {
  }

  /** `100 - 100 / (1 + g / l)` is `100 g / (g + l)` for a positive `l`. */
  lemma RsiFormula(g: real, l: real)
    requires g >= 0.0 && l > 0.0
    ensures 100.0 - 100.0 / (1.0 + g / l) == 100.0 * g / (g + l)
  {
    var s := g + l;
    DivMul(g, l);
    var t := 1.0 + g / l;
    assert t * l == s;
    var u := 100.0 / t;
    DivMul(100.0, t);
    assert u * s == 100.0 * l by {
      assert u * s == u * (t * l);
      assert u * (t * l) == (u * t) * l;
    }
    assert (100.0 - u) * s == 100.0 * g;
    DivUnique(100.0 * g, s, 100.0 - u);
  }

  /** RSI in closed form: the share of the average gain in the average total
      move, scaled to 100; undefined when both averages are zero. */
  lemma RsiOfAverages(g: real, l: real)
    requires g >= 0.0 && l >= 0.0
    ensures g + l == 0.0 ==> RsiOf(Divide(Some(g), Some(l))) == None
    ensures g + l > 0.0 ==> RsiOf(Divide(Some(g), Some(l))) == Some(100.0 * g / (g + l))
  {
    if l > 0.0 {
      RsiFormula(g, l);
    } else if g > 0.0 {
      DivUnique(100.0 * g, g, 100.0);
    }
  }

  /** The RSI column cell by cell: undefined for the first `window - 1`
      rows; from index `window - 1` on, `100 g / (g + l)` of the window's
      average gain `g` and average loss `l`, undefined where both are 0. */
  lemma RsiCell(close: seq<real>, window: nat, i: nat)
    requires window >= 1 && i < |close|
    ensures i + 1 < window ==> Rsi(close, window)[i] == None
    ensures i + 1 >= window ==>
      var g, l := Mean(Trailing(Gain(close), i, window)), Mean(Trailing(Loss(close), i, window));
      && AverageGain(close, window)[i] == Some(g)
      && AverageLoss(close, window)[i] == Some(l)
      && g >= 0.0 && l >= 0.0
      && (g + l == 0.0 ==> Rsi(close, window)[i] == None)
      && (g + l > 0.0 ==> Rsi(close, window)[i] == Some(100.0 * g / (g + l)))
  {
    AveragesNonNegative(close, window, i);
    if i + 1 >= window {
      var g, l := Mean(Trailing(Gain(close), i, window)), Mean(Trailing(Loss(close), i, window));
      RsiOfAverages(g, l);
    }
  }

  lemma ShareBounds(g: real, l: real)
    requires g > 0.0 && l > 0.0
    ensures 0.0 < 100.0 * g / (g + l) < 100.0
  {
    var s := g + l;
    var x := 100.0 * g / s;
    DivMul(100.0 * g, s);
  }

  /** The cases of the RSI formula once a full window exists: no average
      loss saturates at 100, no average gain gives 0, neither is undefined
      (a flat window), and both strictly inside (0, 100). */
  lemma RsiCases(close: seq<real>, window: nat, i: nat)
    requires window >= 1 && window <= i + 1 <= |close|
    ensures AverageGain(close, window)[i].Some? && AverageLoss(close, window)[i].Some?
    ensures
      var g, l, rsi := AverageGain(close, window)[i].value, AverageLoss(close, window)[i].value, Rsi(close, window)[i];
      && (l == 0.0 && g > 0.0 ==> rsi == Some(100.0))
      && (g == 0.0 && l > 0.0 ==> rsi == Some(0.0))
      && (g == 0.0 && l == 0.0 ==> rsi == None)
      && (g > 0.0 && l > 0.0 ==> rsi.Some? && 0.0 < rsi.value < 100.0)
  {
    RsiCell(close, window, i);
    var g, l := AverageGain(close, window)[i].value, AverageLoss(close, window)[i].value;
    if l == 0.0 && g > 0.0 {
      DivUnique(100.0 * g, g, 100.0);
    }
    if g > 0.0 && l > 0.0 {
      ShareBounds(g, l);
    }
  }

  /** Every defined RSI value lies in [0, 100]. */
  lemma RsiRange(close: seq<real>, window: nat, i: nat)
    requires window >= 1 && i < |close|
    ensures Rsi(close, window)[i].Some? ==> 0.0 <= Rsi(close, window)[i].value <= 100.0
  {
    RsiCell(close, window, i);
    if i + 1 >= window {
      RsiCases(close, window, i);
    }
  }

  lemma GainLossPrefix(close: seq<real>, k: nat)
    requires k <= |close|
    ensures Gain(close[..k]) == Gain(close)[..k]
    ensures Loss(close[..k]) == Loss(close)[..k]
  {
    assert Diff(close[..k]) == Diff(close)[..k];
  }

  /** No look-ahead: RSI of a prefix of the closes is the prefix of RSI. */
  lemma RsiPrefix(close: seq<real>, window: nat, k: nat)
    requires window >= 1 && k <= |close|
    ensures Rsi(close[..k], window) == Rsi(close, window)[..k]
  {
    GainLossPrefix(close, k);
    RollingMeanPrefix(Gain(close), window, k);
    RollingMeanPrefix(Loss(close), window, k);
    forall i | 0 <= i < k
      ensures Rsi(close[..k], window)[i] == Rsi(close, window)[i]
    {
      assert AverageGain(close[..k], window)[i] == AverageGain(close, window)[i];
      assert AverageLoss(close[..k], window)[i] == AverageLoss(close, window)[i];
    }
  }

  // ---------------------------------------------------------------------
  // Bollinger Bands

  /** `sma + (std * 2)`: the `Bollinger_Upper` column. */
  function BollingerUpper(close: seq<real>, window: nat, sqrt: real -> real): (upper: seq<Option<real>>)
    requires window >= 1
    ensures |upper| == |close|
  {
    var sma, std := RollingMean(close, window), RollingStd(close, window, sqrt);
    seq(|close|, i requires 0 <= i < |close| => AddCells(sma[i], ScaleCell(std[i], 2.0)))
  }

  /** `sma - (std * 2)`: the `Bollinger_Lower` column. */
  function BollingerLower(close: seq<real>, window: nat, sqrt: real -> real): (lower: seq<Option<real>>)
    requires window >= 1
    ensures |lower| == |close|
  {
    var sma, std := RollingMean(close, window), RollingStd(close, window, sqrt);
    seq(|close|, i requires 0 <= i < |close| => SubCells(sma[i], ScaleCell(std[i], 2.0)))
  }

  /** The bands cell by cell: both undefined until a full window (and
      everywhere for a window of 1); where defined they sit two deviations
      either side of the moving average, so upper >= sma >= lower. */
  lemma BollingerCell(close: seq<real>, window: nat, sqrt: real -> real, i: nat)
    requires window >= 1 && i < |close| && IsSqrt(sqrt)
    ensures BollingerUpper(close, window, sqrt)[i].Some? <==> window >= 2 && i + 1 >= window
    ensures BollingerLower(close, window, sqrt)[i].Some? <==> window >= 2 && i + 1 >= window
    ensures window >= 2 && i + 1 >= window ==>
      var sma, std := RollingMean(close, window)[i], RollingStd(close, window, sqrt)[i];
      var upper, lower := BollingerUpper(close, window, sqrt)[i].value, BollingerLower(close, window, sqrt)[i].value;
      && sma.Some? && std.Some? && std.value >= 0.0
      && upper - sma.value == 2.0 * std.value
      && sma.value - lower == 2.0 * std.value
      && lower <= sma.value <= upper
  {
    RollingMeanAt(close, window, i);
    RollingStdAt(close, window, sqrt, i);
  }

  /** A series shorter than the window has no band values at all. */
  lemma BollingerShortSeries(close: seq<real>, window: nat, sqrt: real -> real)
    requires window >= 1 && |close| < window && IsSqrt(sqrt)
    ensures forall i | 0 <= i < |close| ::
      BollingerUpper(close, window, sqrt)[i] == None && BollingerLower(close, window, sqrt)[i] == None
  {
    forall i | 0 <= i < |close|
      ensures BollingerUpper(close, window, sqrt)[i] == None && BollingerLower(close, window, sqrt)[i] == None
    {
      BollingerCell(close, window, sqrt, i);
    }
  }

  /** Over a window of equal closes the deviation is zero, so both bands
      collapse onto that close. */
  lemma BollingerFlat(close: seq<real>, window: nat, sqrt: real -> real, i: nat, c: real)
    requires 2 <= window <= i + 1 <= |close| && IsSqrt(sqrt)
    requires forall j | i + 1 - window <= j <= i :: close[j] == c
    ensures BollingerUpper(close, window, sqrt)[i] == Some(c)
    ensures BollingerLower(close, window, sqrt)[i] == Some(c)
  {
    RollingMeanFlat(close, window, i, c);
    RollingStdFlat(close, window, sqrt, i, c);
  }

  /** No look-ahead: the bands of a prefix are the prefix of the bands. */
  lemma BollingerPrefix(close: seq<real>, window: nat, sqrt: real -> real, k: nat)
    requires window >= 1 && k <= |close|
    ensures BollingerUpper(close[..k], window, sqrt) == BollingerUpper(close, window, sqrt)[..k]
    ensures BollingerLower(close[..k], window, sqrt) == BollingerLower(close, window, sqrt)[..k]
  {
    RollingMeanPrefix(close, window, k);
    RollingStdPrefix(close, window, sqrt, k);
  }

  // ---------------------------------------------------------------------
  // MACD

  /** `short_ema - long_ema`: the `MACD` column's values. */
  function MacdLine(close: seq<real>, short: nat, long: nat): (macd: seq<real>)
    requires short >= 1 && long >= 1
    ensures |macd| == |close|
  {
    var fast, slow := Ewm(close, short), Ewm(close, long);
    seq(|close|, i requires 0 <= i < |close| => fast[i] - slow[i])
  }

  /** The EWM of the MACD line: the `Signal_Line` column's values. */
  function SignalLine(close: seq<real>, short: nat, long: nat, signal: nat): (line: seq<real>)
    requires short >= 1 && long >= 1 && signal >= 1
    ensures |line| == |close|
  {
    Ewm(MacdLine(close, short, long), signal)
  }

  /** Both EWMs stay within the range of the closes, so the MACD and its
      signal line never exceed the width of that range in size. */
  lemma MacdBounds(close: seq<real>, short: nat, long: nat, signal: nat, lo: real, hi: real)
    requires short >= 1 && long >= 1 && signal >= 1
    requires forall j | 0 <= j < |close| :: lo <= close[j] <= hi
    ensures forall j | 0 <= j < |close| :: lo - hi <= MacdLine(close, short, long)[j] <= hi - lo
    ensures forall j | 0 <= j < |close| :: lo - hi <= SignalLine(close, short, long, signal)[j] <= hi - lo
  {
    EwmBounds(close, short, lo, hi);
    EwmBounds(close, long, lo, hi);
    EwmBounds(MacdLine(close, short, long), signal, lo - hi, hi - lo);
  }

  /** On a constant series both lines are 0 at every index. */
  lemma MacdFlat(close: seq<real>, short: nat, long: nat, signal: nat, c: real)
    requires short >= 1 && long >= 1 && signal >= 1
    requires forall j | 0 <= j < |close| :: close[j] == c
    ensures forall j | 0 <= j < |close| :: MacdLine(close, short, long)[j] == 0.0
    ensures forall j | 0 <= j < |close| :: SignalLine(close, short, long, signal)[j] == 0.0
  {
    MacdBounds(close, short, long, signal, c, c);
  }

  /** No look-ahead: the lines of a prefix are the prefix of the lines. */
  lemma MacdPrefix(close: seq<real>, short: nat, long: nat, signal: nat, k: nat)
    requires short >= 1 && long >= 1 && signal >= 1 && k <= |close|
    ensures MacdLine(close[..k], short, long) == MacdLine(close, short, long)[..k]
    ensures SignalLine(close[..k], short, long, signal) == SignalLine(close, short, long, signal)[..k]
  {
    EwmPrefix(close, short, k);
    EwmPrefix(close, long, k);
    EwmPrefix(MacdLine(close, short, long), signal, k);
  }
}
