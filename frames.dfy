/** The data frame the indicator functions of
    utils/technical_indicators.py write into: each one computes its columns
    from `Close`, assigns them into the caller's frame in place, and returns
    that same frame. */
module Frames {
  import opened Series
  import Indicators

  const RsiColumn: string := "RSI"
  const UpperColumn: string := "Bollinger_Upper"
  const LowerColumn: string := "Bollinger_Lower"
  const MacdColumn: string := "MACD"
  const SignalColumn: string := "Signal_Line"
  const Sma20Column: string := "SMA_20"
  const Ema10Column: string := "EMA_10"

  /** A price table: its `Close` column and the float columns added to it,
      by name. */
  class DataFrame {
    var close: seq<real>
    var columns: map<string, seq<Option<real>>>

    /** Every added column is index-aligned with `Close`. */
    ghost predicate Aligned()
      reads this
    {
      forall name | name in columns :: |columns[name]| == |close|
    }

    constructor (close: seq<real>)
      ensures this.close == close && columns == map[]
      ensures Aligned()
    {
      this.close := close;
      columns := map[];
    }
  }

  /** `calculate_rsi`: writes the `RSI` column and returns the frame. */
  method CalculateRsi(data: DataFrame, window: nat := Indicators.RsiWindow) returns (result: DataFrame)
    requires window >= 1
    modifies data
    ensures result == data && data.close == old(data.close)
    ensures data.columns == old(data.columns)[RsiColumn := Indicators.Rsi(data.close, window)]
    ensures old(data.Aligned()) ==> data.Aligned()
  {
    var rsi := Indicators.Rsi(data.close, window);
    data.columns := data.columns[RsiColumn := rsi];
    result := data;
  }

  /** `calculate_bollinger_bands`: writes `Bollinger_Upper` and
      `Bollinger_Lower` and returns the frame. The square root the rolling
      deviation needs is the library's, passed in. */
  method CalculateBollingerBands(data: DataFrame, sqrt: real -> real, window: nat := Indicators.BollingerWindow)
    returns (result: DataFrame)
    requires window >= 1
    modifies data
    ensures result == data && data.close == old(data.close)
    ensures data.columns == old(data.columns)
      [UpperColumn := Indicators.BollingerUpper(data.close, window, sqrt)]
      [LowerColumn := Indicators.BollingerLower(data.close, window, sqrt)]
    ensures old(data.Aligned()) ==> data.Aligned()
  {
    var upper := Indicators.BollingerUpper(data.close, window, sqrt);
    var lower := Indicators.BollingerLower(data.close, window, sqrt);
    data.columns := data.columns[UpperColumn := upper];
    data.columns := data.columns[LowerColumn := lower];
    result := data;
  }

  /** `calculate_macd`: writes `MACD` and `Signal_Line` and returns the
      frame. Both columns are defined at every row. */
  method CalculateMacd(data: DataFrame, short: nat := Indicators.MacdShort, long: nat := Indicators.MacdLong,
                       signal: nat := Indicators.MacdSignal)
    returns (result: DataFrame)
    requires short >= 1 && long >= 1 && signal >= 1
    modifies data
    ensures result == data && data.close == old(data.close)
    ensures data.columns == old(data.columns)
      [MacdColumn := Defined(Indicators.MacdLine(data.close, short, long))]
      [SignalColumn := Defined(Indicators.SignalLine(data.close, short, long, signal))]
    ensures old(data.Aligned()) ==> data.Aligned()
  {
    var macd := Indicators.MacdLine(data.close, short, long);
    data.columns := data.columns[MacdColumn := Defined(macd)];
    var line := Ewm(macd, signal);
    data.columns := data.columns[SignalColumn := Defined(line)];
    result := data;
  }

  /** The two moving averages the application adds before the indicators:
      `SMA_20`, the 20-row rolling mean, and `EMA_10`, the span-10 EWM. */
  method AddMovingAverages(data: DataFrame)
    modifies data
    ensures data.close == old(data.close)
    ensures data.columns == old(data.columns)
      [Sma20Column := RollingMean(data.close, 20)]
      [Ema10Column := Defined(Ewm(data.close, 10))]
    ensures old(data.Aligned()) ==> data.Aligned()
  {
    data.columns := data.columns[Sma20Column := RollingMean(data.close, 20)];
    data.columns := data.columns[Ema10Column := Defined(Ewm(data.close, 10))];
  }
}
