/** Series utilities: the rolling and exponential statistics that every
    indicator is built from (pandas `rolling(window).mean()`,
    `rolling(window).std()` and `ewm(span, adjust=False).mean()`), over exact
    reals. A NaN cell of a column is `None`. */
module Series {

  datatype Option<+T> = None | Some(value: T)

  /** A column whose every cell is defined: `xs` as a float column. */
  function Defined(xs: seq<real>): (col: seq<Option<real>>)
    ensures |col| == |xs|
    ensures forall i | 0 <= i < |col| :: col[i] == Some(xs[i])
  {
    seq(|xs|, i requires 0 <= i < |xs| => Some(xs[i]))
  }

  // ---------------------------------------------------------------------
  // Sums and means

  function Sum(s: seq<real>): real
    decreases |s|
  {
    if s == [] then 0.0 else Sum(s[..|s| - 1]) + s[|s| - 1]
  }

  lemma {:induction false} SumConstant(s: seq<real>, c: real)
    requires forall j | 0 <= j < |s| :: s[j] == c
    ensures Sum(s) == |s| as real * c
  {
    if s != [] {
      SumConstant(s[..|s| - 1], c);
    }
  }

  lemma {:induction false} SumBounds(s: seq<real>, lo: real, hi: real)
    requires forall j | 0 <= j < |s| :: lo <= s[j] <= hi
    ensures |s| as real * lo <= Sum(s) <= |s| as real * hi
  {
    if s != [] {
      SumBounds(s[..|s| - 1], lo, hi);
    }
  }

  /** A sum whose terms are all zero but one is that one term. */
  lemma {:induction false} SumSingle(s: seq<real>, p: nat, v: real)
    requires p < |s| && s[p] == v
    requires forall j | 0 <= j < |s| && j != p :: s[j] == 0.0
    ensures Sum(s) == v
  {
    if p == |s| - 1 {
      SumConstant(s[..p], 0.0);
    } else {
      SumSingle(s[..|s| - 1], p, v);
    }
  }

  /** The arithmetic mean of a non-empty window. */
  function Mean(s: seq<real>): real
    requires |s| > 0
  {
    Sum(s) / |s| as real
  }

  /** The mean lies between any lower and upper bound of the values. */
  lemma MeanBounds(s: seq<real>, lo: real, hi: real)
    requires |s| > 0
    requires forall j | 0 <= j < |s| :: lo <= s[j] <= hi
    ensures lo <= Mean(s) <= hi
  {
    SumBounds(s, lo, hi);
    var n := |s| as real;
    assert Mean(s) * n == Sum(s);
  }

  lemma MeanConstant(s: seq<real>, c: real)
    requires |s| > 0
    requires forall j | 0 <= j < |s| :: s[j] == c
    ensures Mean(s) == c
  {
    SumConstant(s, c);
  }

  // ---------------------------------------------------------------------
  // Rolling windows

  /** The trailing window of `w` values ending at index `i` (inclusive). */
  function Trailing(xs: seq<real>, i: nat, w: nat): (win: seq<real>)
    requires 0 < w <= i + 1 <= |xs|
    ensures |win| == w
    ensures forall j | 0 <= j < w :: win[j] == xs[i + 1 - w + j]
  {
    xs[i + 1 - w .. i + 1]
  }

  /** A trailing window only looks at values up to its last index, so it is
      the same in every longer series. */
  lemma TrailingOfPrefix(xs: seq<real>, k: nat, i: nat, w: nat)
    requires 0 < w <= i + 1 <= k <= |xs|
    ensures Trailing(xs[..k], i, w) == Trailing(xs, i, w)
  {
  }

  /** `rolling(window=w).mean()`: the mean of the trailing `w` values,
      undefined until a full window exists. */
  function RollingMean(xs: seq<real>, w: nat): (col: seq<Option<real>>)
    requires w >= 1
    ensures |col| == |xs|
    ensures forall i | 0 <= i < |col| :: col[i].Some? <==> i + 1 >= w
  {
    seq(|xs|, i requires 0 <= i < |xs| =>
      if i + 1 < w then None else Some(Mean(Trailing(xs, i, w))))
  }

  /** Where the rolling mean is defined, and what it is there: the mean of
      a full trailing window. */
  lemma RollingMeanAt(xs: seq<real>, w: nat, i: nat)
    requires w >= 1 && i < |xs|
    ensures RollingMean(xs, w)[i].Some? <==> i + 1 >= w
    ensures i + 1 >= w ==> RollingMean(xs, w)[i].value == Mean(Trailing(xs, i, w))
  {
  }

  /** The rolling mean of a non-negative series is non-negative at every
      defined cell. */
  lemma RollingMeanNonNegativeAll(xs: seq<real>, w: nat)
    requires w >= 1
    requires forall j | 0 <= j < |xs| :: 0.0 <= xs[j]
    ensures forall i | 0 <= i < |xs| && RollingMean(xs, w)[i].Some? :: 0.0 <= RollingMean(xs, w)[i].value
  {
    forall i | 0 <= i < |xs| && RollingMean(xs, w)[i].Some?
      ensures 0.0 <= RollingMean(xs, w)[i].value
    {
      RollingMeanNonNegative(xs, w, i);
    }
  }

  /** A rolling mean stays within the bounds of the series. */
  lemma RollingMeanBounds(xs: seq<real>, w: nat, i: nat, lo: real, hi: real)
    requires w >= 1 && i < |xs|
    requires forall j | 0 <= j < |xs| :: lo <= xs[j] <= hi
    ensures RollingMean(xs, w)[i].Some? ==> lo <= RollingMean(xs, w)[i].value <= hi
  {
    if i + 1 >= w {
      MeanBounds(Trailing(xs, i, w), lo, hi);
    }
  }

  lemma RollingMeanNonNegative(xs: seq<real>, w: nat, i: nat)
    requires w >= 1 && i < |xs|
    requires forall j | 0 <= j < |xs| :: 0.0 <= xs[j]
    ensures RollingMean(xs, w)[i].Some? ==> 0.0 <= RollingMean(xs, w)[i].value
  {
    if i + 1 >= w {
      var win := Trailing(xs, i, w);
      MaxOfBounds(win);
      MeanBounds(win, 0.0, MaxOf(win));
    }
  }

  /** The largest value of a non-empty sequence (a helper for bounds). */
  function MaxOf(s: seq<real>): real
    requires |s| > 0
    decreases |s|
  {
    if |s| == 1 then s[0]
    else var m := MaxOf(s[..|s| - 1]); if s[|s| - 1] > m then s[|s| - 1] else m
  }

  lemma {:induction false} MaxOfBounds(s: seq<real>)
    requires |s| > 0
    ensures forall j | 0 <= j < |s| :: s[j] <= MaxOf(s)
  {
    if |s| > 1 {
      MaxOfBounds(s[..|s| - 1]);
    }
  }

  /** On a window of equal values the rolling mean is that value. */
  lemma RollingMeanFlat(xs: seq<real>, w: nat, i: nat, c: real)
    requires w >= 1 && w <= i + 1 <= |xs|
    requires forall j | i + 1 - w <= j <= i :: xs[j] == c
    ensures RollingMean(xs, w)[i] == Some(c)
  {
    MeanConstant(Trailing(xs, i, w), c);
  }

  /** No look-ahead: the rolling mean of a prefix is the prefix of the
      rolling mean. */
  lemma RollingMeanPrefix(xs: seq<real>, w: nat, k: nat)
    requires w >= 1 && k <= |xs|
    ensures RollingMean(xs[..k], w) == RollingMean(xs, w)[..k]
  {
    forall i | 0 <= i < k
      ensures RollingMean(xs[..k], w)[i] == RollingMean(xs, w)[i]
    {
      if i + 1 >= w {
        TrailingOfPrefix(xs, k, i, w);
      }
    }
  }

  // ---------------------------------------------------------------------
  // Rolling sample standard deviation

  /** The sum of squared deviations of `s` from `m`. */
  function SquaredDeviations(s: seq<real>, m: real): (r: real)
    ensures r >= 0.0
    decreases |s|
  {
    if s == [] then 0.0
    else
      var d := s[|s| - 1] - m;
      SquaredDeviations(s[..|s| - 1], m) + d * d
  }

  lemma {:induction false} SquaredDeviationsFlat(s: seq<real>, c: real)
    requires forall j | 0 <= j < |s| :: s[j] == c
    ensures SquaredDeviations(s, c) == 0.0
  {
    if s != [] {
      SquaredDeviationsFlat(s[..|s| - 1], c);
    }
  }

  /** The sample variance (divisor n - 1, pandas' default ddof=1). */
  function SampleVariance(s: seq<real>): (v: real)
    requires |s| >= 2
    ensures v >= 0.0
  {
    SquaredDeviations(s, Mean(s)) / (|s| - 1) as real
  }

  /** The library square root, which the model does not compute: any
      function that gives the non-negative root of a non-negative number
      (the root of 0 is spelled out, as the solver does not derive it). */
  ghost predicate IsSqrt(sqrt: real -> real)
  {
    && sqrt(0.0) == 0.0
    && forall v :: 0.0 <= v ==> 0.0 <= sqrt(v) && sqrt(v) * sqrt(v) == v
  }

  /** `rolling(window=w).std()`: the sample standard deviation of the
      trailing `w` values. Undefined until a full window exists, and
      everywhere when `w` is 1 (a single value has no sample deviation). */
  function RollingStd(xs: seq<real>, w: nat, sqrt: real -> real): (col: seq<Option<real>>)
    requires w >= 1
    ensures |col| == |xs|
    ensures forall i | 0 <= i < |col| :: col[i].Some? <==> w >= 2 && i + 1 >= w
  {
    seq(|xs|, i requires 0 <= i < |xs| =>
      if i + 1 < w || w < 2 then None else Some(sqrt(SampleVariance(Trailing(xs, i, w)))))
  }

  /** Where the rolling deviation is defined, it is the non-negative number
      whose square is the sample variance of the trailing window. */
  lemma RollingStdAt(xs: seq<real>, w: nat, sqrt: real -> real, i: nat)
    requires w >= 1 && i < |xs| && IsSqrt(sqrt)
    ensures RollingStd(xs, w, sqrt)[i].Some? <==> w >= 2 && i + 1 >= w
    ensures RollingStd(xs, w, sqrt)[i].Some? ==>
      var s := RollingStd(xs, w, sqrt)[i].value;
      s >= 0.0 && s * s == SampleVariance(Trailing(xs, i, w))
  {
    if w >= 2 && i + 1 >= w {
      var v := SampleVariance(Trailing(xs, i, w));
      assert 0.0 <= sqrt(v);
    }
  }

  /** On a window of equal values the rolling deviation is zero. */
  lemma RollingStdFlat(xs: seq<real>, w: nat, sqrt: real -> real, i: nat, c: real)
    requires 2 <= w <= i + 1 <= |xs| && IsSqrt(sqrt)
    requires forall j | i + 1 - w <= j <= i :: xs[j] == c
    ensures RollingStd(xs, w, sqrt)[i] == Some(0.0)
  {
    var win := Trailing(xs, i, w);
    MeanConstant(win, c);
    SquaredDeviationsFlat(win, c);
    var v := SampleVariance(win);
    assert v == 0.0;
    assert RollingStd(xs, w, sqrt)[i] == Some(sqrt(v));
  }

  lemma RollingStdPrefix(xs: seq<real>, w: nat, sqrt: real -> real, k: nat)
    requires w >= 1 && k <= |xs|
    ensures RollingStd(xs[..k], w, sqrt) == RollingStd(xs, w, sqrt)[..k]
  {
    forall i | 0 <= i < k
      ensures RollingStd(xs[..k], w, sqrt)[i] == RollingStd(xs, w, sqrt)[i]
    {
      if i + 1 >= w {
        TrailingOfPrefix(xs, k, i, w);
      }
    }
  }

  // ---------------------------------------------------------------------
  // Exponential moving average, adjust=False

  /** The smoothing factor 2 / (span + 1) of `ewm(span=span)`. */
  function Alpha(span: nat): (a: real)
    requires span >= 1
    ensures 0.0 < a <= 1.0
  {
    2.0 / (span + 1) as real
  }

  /** One smoothing step: weight `a` on the new input `x`, the rest on the
      previous average. */
  function Blend(a: real, x: real, prev: real): real
  {
    a * x + (1.0 - a) * prev
  }

  /** `ewm(span=span, adjust=False).mean()`: the first value is the first
      input; each later one mixes the new input with the previous average. */
  function Ewm(xs: seq<real>, span: nat): (e: seq<real>)
    requires span >= 1
    ensures |e| == |xs|
    decreases |xs|
  {
    if xs == [] then []
    else
      var prev := Ewm(xs[..|xs| - 1], span);
      prev + [if prev == [] then xs[0] else Blend(Alpha(span), xs[|xs| - 1], prev[|prev| - 1])]
  }

  /** No look-ahead: the average of a prefix is the prefix of the average. */
  lemma {:induction false} EwmPrefix(xs: seq<real>, span: nat, k: nat)
    requires span >= 1 && k <= |xs|
    ensures Ewm(xs[..k], span) == Ewm(xs, span)[..k]
    decreases |xs|
  {
    if k < |xs| {
      var init := xs[..|xs| - 1];
      EwmPrefix(init, span, k);
      assert init[..k] == xs[..k];
    } else {
      assert xs[..k] == xs;
    }
  }

  /** The last value of the average in terms of the one before it. */
  lemma EwmLast(xs: seq<real>, span: nat)
    requires span >= 1 && |xs| >= 2
    ensures Ewm(xs, span)[|xs| - 1] == Blend(Alpha(span), xs[|xs| - 1], Ewm(xs, span)[|xs| - 2])
  {
    var prev := Ewm(xs[..|xs| - 1], span);
    assert Ewm(xs, span)[|xs| - 2] == prev[|prev| - 1];
  }

  /** The average starts at the first input. */
  lemma EwmFirst(xs: seq<real>, span: nat)
    requires span >= 1 && |xs| > 0
    ensures Ewm(xs, span)[0] == xs[0]
  {
    EwmPrefix(xs, span, 1);
    assert xs[..1][..0] == [];
  }

  /** The adjust=False recurrence at every later index. */
  lemma EwmRecurrence(xs: seq<real>, span: nat, i: nat)
    requires span >= 1 && 0 < i < |xs|
    ensures Ewm(xs, span)[i] == Blend(Alpha(span), xs[i], Ewm(xs, span)[i - 1])
  {
    var p := xs[..i + 1];
    EwmPrefix(xs, span, i + 1);
    EwmLast(p, span);
    assert Ewm(p, span)[i - 1] == Ewm(xs, span)[i - 1];
  }

  lemma MulNonNegative(c: real, d: real)
    requires 0.0 <= c && 0.0 <= d
    ensures 0.0 <= c * d
  {
  }

  /** A convex combination of two values in [lo, hi] stays in [lo, hi]. */
  lemma ConvexCombinationBounds(a: real, x: real, p: real, lo: real, hi: real)
    requires 0.0 <= a <= 1.0 && lo <= x <= hi && lo <= p <= hi
    ensures lo <= a * x + (1.0 - a) * p <= hi
  {
    MulNonNegative(a, x - lo);
    MulNonNegative(1.0 - a, p - lo);
    MulNonNegative(a, hi - x);
    MulNonNegative(1.0 - a, hi - p);
    assert a * (x - lo) + (1.0 - a) * (p - lo) == a * x + (1.0 - a) * p - lo;
    assert a * (hi - x) + (1.0 - a) * (hi - p) == hi - (a * x + (1.0 - a) * p);
  }

  /** The average is a running convex combination of the inputs, so it stays
      within any bounds of them. */
  lemma {:induction false} EwmBounds(xs: seq<real>, span: nat, lo: real, hi: real)
    requires span >= 1
    requires forall j | 0 <= j < |xs| :: lo <= xs[j] <= hi
    ensures forall j | 0 <= j < |xs| :: lo <= Ewm(xs, span)[j] <= hi
    decreases |xs|
  {
    if xs != [] {
      var init := xs[..|xs| - 1];
      EwmBounds(init, span, lo, hi);
      var prev := Ewm(init, span);
      var e := Ewm(xs, span);
      assert e[..|prev|] == prev;
      if prev != [] {
        var a := Alpha(span);
        var x, p := xs[|xs| - 1], prev[|prev| - 1];
        assert lo <= p <= hi;
        assert e[|xs| - 1] == Blend(a, x, p);
        ConvexCombinationBounds(a, x, p, lo, hi);
        assert lo <= e[|xs| - 1] <= hi;
      } else {
        assert e[0] == xs[0];
      }
      forall j | 0 <= j < |xs| ensures lo <= e[j] <= hi {
        if j < |prev| {
          assert e[j] == prev[j];
        }
      }
    }
  }

  /** The average of a constant series is that constant at every index. */
  lemma EwmFlat(xs: seq<real>, span: nat, c: real)
    requires span >= 1
    requires forall j | 0 <= j < |xs| :: xs[j] == c
    ensures forall j | 0 <= j < |xs| :: Ewm(xs, span)[j] == c
  {
    EwmBounds(xs, span, c, c);
  }
}
