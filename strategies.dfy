/** The three rule engines of utils/strategies.py. Each walks its indicator
    columns row by row and appends exactly one of three labels per row. */
module Strategies {
  import opened Series

  const Buy: string := "Buy"
  const Sell: string := "Sell"
  const DoNothing: string := "Do nothing"

  predicate IsLabel(s: string)
  {
    s == Buy || s == Sell || s == DoNothing
  }

  /** Python's `a < b` on two float cells: false whenever either is NaN. */
  predicate Less(a: Option<real>, b: Option<real>)
  {
    a.Some? && b.Some? && a.value < b.value
  }

  // ---------------------------------------------------------------------
  // One row of each rule

  /** `rsi < 30` buys, `rsi > 70` sells, anything else does nothing. */
  function RsiRule(rsi: Option<real>): (decision: string)
    ensures IsLabel(decision)
  {
    if Less(rsi, Some(30.0)) then Buy
    else if Less(Some(70.0), rsi) then Sell
    else DoNothing
  }

  /** A close below the lower band buys (tested first), one above the upper
      band sells, anything else does nothing. */
  function BollingerRule(close: real, upper: Option<real>, lower: Option<real>): (decision: string)
    ensures IsLabel(decision)
  {
    if Less(Some(close), lower) then Buy
    else if Less(upper, Some(close)) then Sell
    else DoNothing
  }

  /** MACD above its signal line buys, below it sells, equal does nothing. */
  function MacdRule(macd: Option<real>, signal: Option<real>): (decision: string)
    ensures IsLabel(decision)
  {
    if Less(signal, macd) then Buy
    else if Less(macd, signal) then Sell
    else DoNothing
  }

  function BollingerRow(row: (real, Option<real>, Option<real>)): string
  {
    BollingerRule(row.0, row.1, row.2)
  }

  function MacdRow(row: (Option<real>, Option<real>)): string
  {
    MacdRule(row.0, row.1)
  }

  // ---------------------------------------------------------------------
  // Whole columns

  /** The rows of `zip(a, b)`: as many as the shorter column has. */
  function Zip2<A, B>(a: seq<A>, b: seq<B>): (rows: seq<(A, B)>)
    ensures |rows| == if |a| <= |b| then |a| else |b|
    ensures forall i | 0 <= i < |rows| :: rows[i] == (a[i], b[i])
  {
    var n := if |a| <= |b| then |a| else |b|;
    seq(n, i requires 0 <= i < n => (a[i], b[i]))
  }

  /** The rows of `zip(a, b, c)`: as many as the shortest column has. */
  function Zip3<A, B, C>(a: seq<A>, b: seq<B>, c: seq<C>): (rows: seq<(A, B, C)>)
    ensures |rows| == Min3(|a|, |b|, |c|)
    ensures forall i | 0 <= i < |rows| :: rows[i] == (a[i], b[i], c[i])
  {
    var n := Min3(|a|, |b|, |c|);
    seq(n, i requires 0 <= i < n => (a[i], b[i], c[i]))
  }

  function Min3(x: nat, y: nat, z: nat): (m: nat)
    ensures m <= x && m <= y && m <= z
    ensures m == x || m == y || m == z
  {
    if x <= y && x <= z then x else if y <= z then y else z
  }

  /** The label list a strategy builds: one label per row, appended in row
      order. */
  function Classify<T>(rows: seq<T>, rule: T -> string): (labels: seq<string>)
    ensures |labels| == |rows|
    decreases |rows|
  {
    if rows == [] then [] else Classify(rows[..|rows| - 1], rule) + [rule(rows[|rows| - 1])]
  }

  /** Row `i`'s label is the rule applied to row `i` alone. */
  lemma {:induction false} ClassifyAt<T>(rows: seq<T>, rule: T -> string, i: nat)
    requires i < |rows|
    ensures Classify(rows, rule)[i] == rule(rows[i])
    decreases |rows|
  {
    if i < |rows| - 1 {
      ClassifyAt(rows[..|rows| - 1], rule, i);
    }
  }

  /** Classifying a prefix of the rows yields the same prefix of labels. */
  lemma {:induction false} ClassifyPrefix<T>(rows: seq<T>, rule: T -> string, k: nat)
    requires k <= |rows|
    ensures Classify(rows[..k], rule) == Classify(rows, rule)[..k]
    decreases |rows|
  {
    if k < |rows| {
      ClassifyPrefix(rows[..|rows| - 1], rule, k);
      assert rows[..|rows| - 1][..k] == rows[..k];
    } else {
      assert rows[..k] == rows;
    }
  }

  /** Every label a strategy emits is one of the three. */
  lemma ClassifyLabels<T>(rows: seq<T>, rule: T -> string)
    requires forall r :: IsLabel(rule(r))
    ensures forall i | 0 <= i < |rows| :: IsLabel(Classify(rows, rule)[i])
  {
    forall i | 0 <= i < |rows|
      ensures IsLabel(Classify(rows, rule)[i])
    {
      ClassifyAt(rows, rule, i);
    }
  }

  // ---------------------------------------------------------------------
  // The strategies as the source writes them: a loop appending one label
  // per row

  /** `rsi_strategy` over the `RSI` column. */
  method RsiStrategy(rsi: seq<Option<real>>) returns (signals: seq<string>)
    ensures signals == Classify(rsi, RsiRule)
    ensures |signals| == |rsi|
    ensures forall i | 0 <= i < |rsi| :: signals[i] == RsiRule(rsi[i])
  {
    signals := [];
    for i := 0 to |rsi|
      invariant signals == Classify(rsi[..i], RsiRule)
    {
      var value := rsi[i];
      if Less(value, Some(30.0)) {
        signals := signals + [Buy];
      } else if Less(Some(70.0), value) {
        signals := signals + [Sell];
      } else {
        signals := signals + [DoNothing];
      }
      assert rsi[..i + 1][..i] == rsi[..i];
    }
    assert rsi[..|rsi|] == rsi;
    forall i | 0 <= i < |rsi|
      ensures signals[i] == RsiRule(rsi[i])
    {
      ClassifyAt(rsi, RsiRule, i);
    }
  }

  /** `bollinger_bands_stragy` over `zip(Close, Bollinger_Upper, Bollinger_Lower)`. */
  method BollingerBandsStragy(close: seq<real>, upper: seq<Option<real>>, lower: seq<Option<real>>)
    returns (signals: seq<string>)
    ensures signals == Classify(Zip3(close, upper, lower), BollingerRow)
    ensures |signals| == Min3(|close|, |upper|, |lower|)
    ensures forall i | 0 <= i < |signals| :: signals[i] == BollingerRule(close[i], upper[i], lower[i])
  {
    var rows := Zip3(close, upper, lower);
    signals := [];
    for i := 0 to |rows|
      invariant signals == Classify(rows[..i], BollingerRow)
    {
      var (c, up, low) := rows[i];
      if Less(Some(c), low) {
        signals := signals + [Buy];
      } else if Less(up, Some(c)) {
        signals := signals + [Sell];
      } else {
        signals := signals + [DoNothing];
      }
      assert rows[..i + 1][..i] == rows[..i];
    }
    assert rows[..|rows|] == rows;
    forall i | 0 <= i < |signals|
      ensures signals[i] == BollingerRule(close[i], upper[i], lower[i])
    {
      ClassifyAt(rows, BollingerRow, i);
    }
  }

  /** `macd_strategy` over `zip(MACD, Signal_Line)`. */
  method MacdStrategy(macd: seq<Option<real>>, signal: seq<Option<real>>) returns (signals: seq<string>)
    ensures signals == Classify(Zip2(macd, signal), MacdRow)
    ensures |signals| == if |macd| <= |signal| then |macd| else |signal|
    ensures forall i | 0 <= i < |signals| :: signals[i] == MacdRule(macd[i], signal[i])
  {
    var rows := Zip2(macd, signal);
    signals := [];
    for i := 0 to |rows|
      invariant signals == Classify(rows[..i], MacdRow)
    {
      var (m, s) := rows[i];
      if Less(s, m) {
        signals := signals + [Buy];
      } else if Less(m, s) {
        signals := signals + [Sell];
      } else {
        signals := signals + [DoNothing];
      }
      assert rows[..i + 1][..i] == rows[..i];
    }
    assert rows[..|rows|] == rows;
    forall i | 0 <= i < |signals|
      ensures signals[i] == MacdRule(macd[i], signal[i])
    {
      ClassifyAt(rows, MacdRow, i);
    }
  }

  // ---------------------------------------------------------------------
  // What each rule decides

  /** Buy exactly below 30, sell exactly above 70; 30, 70, everything
      between them and NaN do nothing. */
  lemma RsiRuleThresholds(rsi: Option<real>)
    ensures RsiRule(rsi) == Buy <==> rsi.Some? && rsi.value < 30.0
    ensures RsiRule(rsi) == Sell <==> rsi.Some? && rsi.value > 70.0
    ensures RsiRule(rsi) == DoNothing <==> rsi.None? || 30.0 <= rsi.value <= 70.0
  {
    LabelsDistinct();
  }

  /** The buy test comes first: a close below the lower band buys whatever
      the upper band is, and a sell needs the buy test to have failed. With
      the lower band not above the upper one, the two conditions never both
      hold, so a close above the upper band sells and one inside the bands
      does nothing. */
  lemma BollingerRuleCases(close: real, upper: real, lower: real)
    ensures BollingerRule(close, Some(upper), Some(lower)) == Buy <==> close < lower
    ensures BollingerRule(close, Some(upper), Some(lower)) == Sell <==> !(close < lower) && close > upper
    ensures BollingerRule(close, Some(upper), Some(lower)) == DoNothing <==> lower <= close && close <= upper
    ensures lower <= upper ==>
      && !(close < lower && close > upper)
      && (BollingerRule(close, Some(upper), Some(lower)) == Sell <==> close > upper)
  {
    LabelsDistinct();
  }

  /** MACD above the signal line buys, below sells, and an exact tie (or a
      NaN on either side) does nothing. */
  lemma MacdRuleCases(macd: Option<real>, signal: Option<real>)
    ensures MacdRule(macd, signal) == Buy <==> macd.Some? && signal.Some? && macd.value > signal.value
    ensures MacdRule(macd, signal) == Sell <==> macd.Some? && signal.Some? && macd.value < signal.value
    ensures MacdRule(macd, signal) == DoNothing <==>
      macd.None? || signal.None? || macd.value == signal.value
  {
    LabelsDistinct();
  }

  /** An undefined indicator value never produces a trade signal. */
  lemma UndefinedDoesNothing(close: real, x: Option<real>)
    ensures RsiRule(None) == DoNothing
    ensures BollingerRule(close, None, None) == DoNothing
    ensures MacdRule(None, x) == DoNothing && MacdRule(x, None) == DoNothing
  {
  }

  lemma LabelsDistinct()
    ensures Buy != Sell && Buy != DoNothing && Sell != DoNothing
  {
    assert Buy[0] != Sell[0] && Buy[0] != DoNothing[0] && Sell[0] != DoNothing[0];
  }
}
