/** How the indicator columns feed the strategies, as the application
    chains them: properties of the whole Close-to-signal pass. */
module Pipeline {
  import opened Series
  import opened Indicators
  import opened Strategies

  /** The signal lists the three strategies produce from the indicator
      columns of a Close series. */
  function RsiSignals(close: seq<real>, window: nat): (signals: seq<string>)
    requires window >= 1
    ensures |signals| == |close|
  {
    Classify(Rsi(close, window), RsiRule)
  }

  function BollingerSignals(close: seq<real>, window: nat, sqrt: real -> real): (signals: seq<string>)
    requires window >= 1
    ensures |signals| == |close|
  {
    Classify(Zip3(close, BollingerUpper(close, window, sqrt), BollingerLower(close, window, sqrt)), BollingerRow)
  }

  function MacdSignals(close: seq<real>, short: nat, long: nat, signal: nat): (signals: seq<string>)
    requires short >= 1 && long >= 1 && signal >= 1
    ensures |signals| == |close|
  {
    Classify(Zip2(Defined(MacdLine(close, short, long)), Defined(SignalLine(close, short, long, signal))), MacdRow)
  }

  /** RSI signals on computed RSI: nothing during the warm-up rows; then buy
      exactly when RSI is defined and below 30, sell exactly when it is
      defined and above 70. */
  lemma RsiSignalsOnRsi(close: seq<real>, window: nat, i: nat)
    requires window >= 1 && i < |close|
    ensures var signals, rsi := RsiSignals(close, window), Rsi(close, window)[i];
      && (i + 1 < window ==> signals[i] == DoNothing)
      && (signals[i] == Buy <==> rsi.Some? && rsi.value < 30.0)
      && (signals[i] == Sell <==> rsi.Some? && rsi.value > 70.0)
  {
    ClassifyAt(Rsi(close, window), RsiRule, i);
    RsiCell(close, window, i);
    RsiRuleThresholds(Rsi(close, window)[i]);
  }

  /** Bollinger signals on computed bands: nothing where the bands are
      undefined; elsewhere the bands are ordered, so a close below the lower
      band buys, above the upper band sells, between them does nothing. */
  lemma BollingerSignalsOnBands(close: seq<real>, window: nat, sqrt: real -> real, i: nat)
    requires window >= 1 && i < |close| && IsSqrt(sqrt)
    ensures var signals := BollingerSignals(close, window, sqrt);
      var upper, lower := BollingerUpper(close, window, sqrt)[i], BollingerLower(close, window, sqrt)[i];
      && (window < 2 || i + 1 < window ==> signals[i] == DoNothing)
      && (window >= 2 && i + 1 >= window ==>
           && (signals[i] == Buy <==> close[i] < lower.value)
           && (signals[i] == Sell <==> close[i] > upper.value)
           && (signals[i] == DoNothing <==> lower.value <= close[i] <= upper.value))
  {
    var upper, lower := BollingerUpper(close, window, sqrt), BollingerLower(close, window, sqrt);
    ClassifyAt(Zip3(close, upper, lower), BollingerRow, i);
    BollingerCell(close, window, sqrt, i);
    if window >= 2 && i + 1 >= window {
      BollingerRuleCases(close[i], upper[i].value, lower[i].value);
    }
  }

  /** On a constant Close series every gain and loss is 0, so RSI is
      undefined at every row (0 / 0) and the RSI strategy never trades. */
  lemma ConstantRsi(close: seq<real>, c: real, window: nat)
    requires window >= 1
    requires forall j | 0 <= j < |close| :: close[j] == c
    ensures forall i | 0 <= i < |close| :: Rsi(close, window)[i] == None
    ensures forall i | 0 <= i < |close| :: RsiSignals(close, window)[i] == DoNothing
  {
    forall j | 0 <= j < |close|
      ensures Gain(close)[j] == 0.0 && Loss(close)[j] == 0.0
    {
      GainLossSplit(close, j);
    }
    forall i | 0 <= i < |close|
      ensures Rsi(close, window)[i] == None
      ensures RsiSignals(close, window)[i] == DoNothing
    {
      RsiCell(close, window, i);
      if i + 1 >= window {
        MeanConstant(Trailing(Gain(close), i, window), 0.0);
        MeanConstant(Trailing(Loss(close), i, window), 0.0);
      }
      ClassifyAt(Rsi(close, window), RsiRule, i);
    }
  }

  /** On a constant Close series every defined band equals the close, and
      the Bollinger strategy never trades. */
  lemma ConstantBands(close: seq<real>, c: real, window: nat, sqrt: real -> real)
    requires window >= 1 && IsSqrt(sqrt)
    requires forall j | 0 <= j < |close| :: close[j] == c
    ensures forall i | 0 <= i < |close| && BollingerUpper(close, window, sqrt)[i].Some? ::
      BollingerUpper(close, window, sqrt)[i] == Some(c) && BollingerLower(close, window, sqrt)[i] == Some(c)
    ensures forall i | 0 <= i < |close| :: BollingerSignals(close, window, sqrt)[i] == DoNothing
  {
    forall i | 0 <= i < |close|
      ensures BollingerUpper(close, window, sqrt)[i].Some? ==>
        BollingerUpper(close, window, sqrt)[i] == Some(c) && BollingerLower(close, window, sqrt)[i] == Some(c)
      ensures BollingerSignals(close, window, sqrt)[i] == DoNothing
    {
      BollingerCell(close, window, sqrt, i);
      BollingerSignalsOnBands(close, window, sqrt, i);
      if window >= 2 && i + 1 >= window {
        BollingerFlat(close, window, sqrt, i, c);
      }
    }
  }

  /** On a constant Close series MACD and its signal line are 0 at every
      row, so they tie and the MACD strategy never trades. */
  lemma ConstantMacd(close: seq<real>, c: real, short: nat, long: nat, signal: nat)
    requires short >= 1 && long >= 1 && signal >= 1
    requires forall j | 0 <= j < |close| :: close[j] == c
    ensures forall i | 0 <= i < |close| ::
      MacdLine(close, short, long)[i] == 0.0 && SignalLine(close, short, long, signal)[i] == 0.0
    ensures forall i | 0 <= i < |close| :: MacdSignals(close, short, long, signal)[i] == DoNothing
  {
    MacdFlat(close, short, long, signal, c);
    var rows := Zip2(Defined(MacdLine(close, short, long)), Defined(SignalLine(close, short, long, signal)));
    forall i | 0 <= i < |close|
      ensures MacdSignals(close, short, long, signal)[i] == DoNothing
    {
      ClassifyAt(rows, MacdRow, i);
      MacdRuleCases(rows[i].0, rows[i].1);
    }
  }

  lemma Zip2Prefix<A, B>(a: seq<A>, b: seq<B>, k: nat)
    requires k <= |a| && k <= |b|
    ensures Zip2(a[..k], b[..k]) == Zip2(a, b)[..k]
  {
  }

  lemma Zip3Prefix<A, B, C>(a: seq<A>, b: seq<B>, c: seq<C>, k: nat)
    requires k <= |a| && k <= |b| && k <= |c|
    ensures Zip3(a[..k], b[..k], c[..k]) == Zip3(a, b, c)[..k]
  {
  }

  /** No look-ahead through the whole pass: running it on the first `k`
      closes gives the first `k` cells of every indicator column and the
      first `k` labels of every strategy. */
  lemma NoLookAhead(close: seq<real>, k: nat, rsiWindow: nat, bandWindow: nat, sqrt: real -> real,
                    short: nat, long: nat, signal: nat)
    requires rsiWindow >= 1 && bandWindow >= 1 && short >= 1 && long >= 1 && signal >= 1
    requires k <= |close|
    ensures Rsi(close[..k], rsiWindow) == Rsi(close, rsiWindow)[..k]
    ensures BollingerUpper(close[..k], bandWindow, sqrt) == BollingerUpper(close, bandWindow, sqrt)[..k]
    ensures BollingerLower(close[..k], bandWindow, sqrt) == BollingerLower(close, bandWindow, sqrt)[..k]
    ensures MacdLine(close[..k], short, long) == MacdLine(close, short, long)[..k]
    ensures SignalLine(close[..k], short, long, signal) == SignalLine(close, short, long, signal)[..k]
    ensures RsiSignals(close[..k], rsiWindow) == RsiSignals(close, rsiWindow)[..k]
    ensures BollingerSignals(close[..k], bandWindow, sqrt) == BollingerSignals(close, bandWindow, sqrt)[..k]
    ensures MacdSignals(close[..k], short, long, signal) == MacdSignals(close, short, long, signal)[..k]
  {
    RsiPrefix(close, rsiWindow, k);
    ClassifyPrefix(Rsi(close, rsiWindow), RsiRule, k);

    BollingerPrefix(close, bandWindow, sqrt, k);
    var upper, lower := BollingerUpper(close, bandWindow, sqrt), BollingerLower(close, bandWindow, sqrt);
    Zip3Prefix(close, upper, lower, k);
    ClassifyPrefix(Zip3(close, upper, lower), BollingerRow, k);

    MacdPrefix(close, short, long, signal, k);
    var macd, line := Defined(MacdLine(close, short, long)), Defined(SignalLine(close, short, long, signal));
    assert Defined(MacdLine(close[..k], short, long)) == macd[..k];
    assert Defined(SignalLine(close[..k], short, long, signal)) == line[..k];
    Zip2Prefix(macd, line, k);
    ClassifyPrefix(Zip2(macd, line), MacdRow, k);
  }

  /** Twenty-six closes of 10 with a single close of 20 at index 15. */
  function SpikeSeries(): (close: seq<real>)
    ensures |close| == 26
  {
    seq(26, i requires 0 <= i < 26 => if i == 15 then 20.0 else 10.0)
  }

  lemma SpikeGainLoss()
    ensures forall j | 0 <= j < 26 :: Gain(SpikeSeries())[j] == if j == 15 then 10.0 else 0.0
    ensures forall j | 0 <= j < 26 :: Loss(SpikeSeries())[j] == if j == 16 then 10.0 else 0.0
  {
  }

  /** The 14-row mean of a window holding one move of 10 is 10 / 14; of a
      window with none, 0. */
  lemma SpikeWindowMean(xs: seq<real>, i: nat, p: nat)
    requires 13 <= i < |xs|
    requires forall j | 0 <= j < |xs| :: xs[j] == if j == p then 10.0 else 0.0
    ensures i - 13 <= p <= i ==> Mean(Trailing(xs, i, 14)) == 10.0 / 14.0
    ensures !(i - 13 <= p <= i) ==> Mean(Trailing(xs, i, 14)) == 0.0
  {
    var win := Trailing(xs, i, 14);
    if i - 13 <= p <= i {
      SumSingle(win, p - (i - 13), 10.0);
    } else {
      SumConstant(win, 0.0);
    }
  }

  /** RSI(14) of the spike series, as the code computes it: undefined up to
      index 14 (the warm-up rows, then flat windows where both averages are
      0), 100 at the spike (an average loss of 0 makes the ratio infinite),
      and 50 from the next row on, while the window holds both the rise and
      the fall. */
  lemma SpikeScenario()
    ensures forall i | 0 <= i < 15 :: Rsi(SpikeSeries(), RsiWindow)[i] == None
    ensures Rsi(SpikeSeries(), RsiWindow)[15] == Some(100.0)
    ensures forall i | 16 <= i < 26 :: Rsi(SpikeSeries(), RsiWindow)[i] == Some(50.0)
  {
    var close := SpikeSeries();
    SpikeGainLoss();
    forall i | 0 <= i < 26
      ensures i < 15 ==> Rsi(close, RsiWindow)[i] == None
      ensures i == 15 ==> Rsi(close, RsiWindow)[i] == Some(100.0)
      ensures 16 <= i ==> Rsi(close, RsiWindow)[i] == Some(50.0)
    {
      RsiCell(close, RsiWindow, i);
      if i >= 13 {
        SpikeWindowMean(Gain(close), i, 15);
        SpikeWindowMean(Loss(close), i, 16);
        var g := 10.0 / 14.0;
        if i == 15 {
          DivUnique(100.0 * g, g + 0.0, 100.0);
        } else if i >= 16 {
          DivUnique(100.0 * g, g + g, 50.0);
        }
      }
    }
  }
}
