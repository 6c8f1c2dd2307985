/**
 * The table each indicator builds from a price column: one constructor of
 * `Frame` per signalling indicator, holding its columns in the order they
 * are added, and a separate table for the commodity channel index, which has
 * no signal. The `side` column is not part of a frame: it is computed from
 * the frame by the signal pass and kept by the indicator object.
 */
module Frames {
  import opened Series
  import opened Columns

  datatype Frame =
    | WilliamsRFrame(price: Series, wr: Series)
    | EmaFrame(price: Series, fast: Series, slow: Series)
    | BollingerFrame(price: Series, average: Series, upperBand: Series, lowerBand: Series, standardDeviation: Series)
    | StochasticFrame(price: Series, percentK: Series, percentD: Series)
    | IchimokuFrame(price: Series, tenkaSen: Series, kijunSen: Series,
                    senkouSpanA: Series, senkouSpanB: Series, chikouSpan: Series)
    | RsiFrame(price: Series, rsi: Series)

  /** The price and its metric, without any signal columns. */
  datatype CciFrame = CciFrame(price: Series, cci: Series)

  /** Every column has one row per price row. */
  predicate Aligned(f: Frame) {
    var n := |f.price|;
    match f
    case WilliamsRFrame(_, wr) => |wr| == n
    case EmaFrame(_, fast, slow) => |fast| == n && |slow| == n
    case BollingerFrame(_, avg, up, low, sd) => |avg| == n && |up| == n && |low| == n && |sd| == n
    case StochasticFrame(_, k, d) => |k| == n && |d| == n
    case IchimokuFrame(_, tenka, kijun, a, b, chikou) =>
      |tenka| == n && |kijun| == n && |a| == n && |b| == n && |chikou| == n
    case RsiFrame(_, rsi) => |rsi| == n
  }

  /**
   * The Bollinger bands are ordered the same way on every row where both are
   * defined; other frames have no bands and are trivially ordered.
   */
  predicate BandsOrdered(f: Frame)
    requires Aligned(f)
  {
    f.BollingerFrame? ==>
      var up, low := f.upperBand, f.lowerBand;
      || (forall i :: 0 <= i < |up| && up[i].Some? && low[i].Some? ==> low[i].value <= up[i].value)
      || (forall i :: 0 <= i < |up| && up[i].Some? && low[i].Some? ==> up[i].value <= low[i].value)
  }

  function WilliamsRTable(close: Series, window: Window): (f: Frame)
    ensures Aligned(f) && BandsOrdered(f) && f.price == close
  {
    WilliamsRFrame(close, WilliamsR(close, window))
  }

  /** The two smoothed lines are inputs computed on the price's rows. */
  function EmaTable(close: Series, fast: Series, slow: Series): (f: Frame)
    requires |fast| == |close| && |slow| == |close|
    ensures Aligned(f) && BandsOrdered(f) && f.price == close
  {
    EmaFrame(close, fast, slow)
  }

  /**
   * The rolling deviation is an input computed on the price's rows; a
   * population standard deviation is never negative, and with that the bands
   * are ordered whatever the sign of `numsd`.
   */
  function BollingerTable(close: Series, sd: Series, window: Window, numsd: real): (f: Frame)
    requires |sd| == |close|
    requires forall i :: 0 <= i < |sd| && sd[i].Some? ==> 0.0 <= sd[i].value
    ensures Aligned(f) && BandsOrdered(f) && f.price == close
  {
    var avg := RollingMean(close, window);
    var f := BollingerFrame(close, avg, UpperBand(avg, sd, numsd), LowerBand(avg, sd, numsd), sd);
    assert BandsOrdered(f) by {
      forall i | 0 <= i < |close|
        ensures var up, low := f.upperBand[i], f.lowerBand[i];
          up.Some? && low.Some? ==>
            (0.0 <= numsd ==> low.value <= up.value) && (numsd <= 0.0 ==> up.value <= low.value)
      {
        BandsAroundAverage(avg, sd, numsd, i);
      }
    }
    f
  }

  function StochasticTable(close: Series, window: Window, stochWindow: Window): (f: Frame)
    ensures Aligned(f) && BandsOrdered(f) && f.price == close
  {
    StochasticFrame(close, PercentK(close, window), PercentD(close, window, stochWindow))
  }

  function IchimokuTable(close: Series, tenkaWindow: Window, kijunWindow: Window, senkouWindow: Window): (f: Frame)
    ensures Aligned(f) && BandsOrdered(f) && f.price == close
  {
    IchimokuFrame(close, Sen(close, tenkaWindow), Sen(close, kijunWindow),
                  SenkouSpanA(close, tenkaWindow, kijunWindow),
                  SenkouSpanB(close, kijunWindow, senkouWindow),
                  ChikouSpan(close))
  }

  /** The RSI is an input computed on the price's rows. */
  function RsiTable(close: Series, rsi: Series): (f: Frame)
    requires |rsi| == |close|
    ensures Aligned(f) && BandsOrdered(f) && f.price == close
  {
    RsiFrame(close, rsi)
  }

  function CciTable(close: Series, window: Window): (f: CciFrame)
    ensures f.price == close && |f.cci| == |close|
  {
    CciFrame(close, Cci(close, window))
  }
}
