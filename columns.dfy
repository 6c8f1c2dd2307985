/**
 * The derived columns of the indicators that are exact in real arithmetic:
 * Williams %R, the stochastic %K and %D, the Ichimoku lines and spans, the
 * commodity channel index, the up/down split of the RSI and the Bollinger
 * bands around a given standard-deviation column.
 */
module Columns {
  import opened Series

  // ---------------------------------------------------------------------
  // Williams %R and the stochastic oscillator

  /** `100 * (high - close) / (high - low)` over the rolling high and low. */
  function WilliamsR(close: Series, w: Window): (r: Series)
    ensures |r| == |close|
  {
    var high := RollingMax(close, w);
    var low := RollingMin(close, w);
    Mul(Const(|close|, 100.0), Div(Sub(high, close), Sub(high, low)))
  }

  /** `%K = 100 * (close - low) / (high - low)` over the rolling high and low. */
  function PercentK(close: Series, w: Window): (r: Series)
    ensures |r| == |close|
  {
    var high := RollingMax(close, w);
    var low := RollingMin(close, w);
    Mul(Const(|close|, 100.0), Div(Sub(close, low), Sub(high, low)))
  }

  /** `%D`, the rolling mean of `%K` over the stochastic window. */
  function PercentD(close: Series, w: Window, stochWindow: Window): (r: Series)
    ensures |r| == |close|
  {
    RollingMean(PercentK(close, w), stochWindow)
  }

  lemma FractionInUnit(x: real, y: real)
    requires 0.0 <= x <= y && 0.0 < y
    ensures 0.0 <= 100.0 * (x / y) <= 100.0
  {
    QuotientBounds(x, y, 0.0, 1.0);
  }

  /**
   * Williams %R is defined exactly on rows whose window is full and has a
   * non-zero range, and then lies in [0, 100]; it is missing for the first
   * `w - 1` rows.
   */
  lemma WilliamsRRange(close: Series, w: Window, i: nat)
    requires i < |close|
    ensures WilliamsR(close, w)[i].Some? <==>
      Full(close, i, w) && RollingMax(close, w)[i] != RollingMin(close, w)[i]
    ensures WilliamsR(close, w)[i].Some? ==> 0.0 <= WilliamsR(close, w)[i].value <= 100.0
    ensures i + 1 < w ==> WilliamsR(close, w)[i] == None
  {
    RollingDefined(close, w, i);
    if Full(close, i, w) {
      RollingBracket(close, w, i);
      var high, low := RollingMax(close, w)[i].value, RollingMin(close, w)[i].value;
      if high != low {
        FractionInUnit(high - close[i].value, high - low);
      }
    }
  }

  /**
   * %K is defined exactly where Williams %R is and lies in [0, 100]; %D, a
   * mean of `stochWindow` such values, lies in [0, 100] as well and is
   * missing for the first `w + stochWindow - 2` rows.
   */
  lemma StochasticRange(close: Series, w: Window, stochWindow: Window, i: nat)
    requires i < |close|
    ensures PercentK(close, w)[i].Some? <==>
      Full(close, i, w) && RollingMax(close, w)[i] != RollingMin(close, w)[i]
    ensures PercentK(close, w)[i].Some? ==> 0.0 <= PercentK(close, w)[i].value <= 100.0
    ensures PercentD(close, w, stochWindow)[i].Some? ==>
      0.0 <= PercentD(close, w, stochWindow)[i].value <= 100.0
    ensures i + 2 < w + stochWindow ==> PercentD(close, w, stochWindow)[i] == None
  {
    var k := PercentK(close, w);
    forall j | 0 <= j < |k| && k[j].Some? ensures 0.0 <= k[j].value <= 100.0 {
      PercentKAt(close, w, j);
    }
    PercentKAt(close, w, i);
    RollingMeanBounds(k, stochWindow, i, 0.0, 100.0);
    if PercentD(close, w, stochWindow)[i].Some? {
      RollingDefined(k, stochWindow, i);
      var j := i + 1 - stochWindow;
      assert k[j].Some?;
      PercentKAt(close, w, j);
    }
  }

  lemma PercentKAt(close: Series, w: Window, i: nat)
    requires i < |close|
    ensures PercentK(close, w)[i].Some? <==>
      Full(close, i, w) && RollingMax(close, w)[i] != RollingMin(close, w)[i]
    ensures PercentK(close, w)[i].Some? ==> 0.0 <= PercentK(close, w)[i].value <= 100.0
    ensures PercentK(close, w)[i].Some? ==> w <= i + 1
  {
    RollingDefined(close, w, i);
    if Full(close, i, w) {
      RollingBracket(close, w, i);
      var high, low := RollingMax(close, w)[i].value, RollingMin(close, w)[i].value;
      if high != low {
        FractionInUnit(close[i].value - low, high - low);
      }
    }
  }

  /**
   * Where the rolling range is zero the numerators of %R and %K are zero as
   * well, so the undefined value there is the 0/0 NaN, never an infinity.
   */
  lemma ZeroRangeZeroNumerator(close: Series, w: Window, i: nat)
    requires Full(close, i, w)
    requires RollingMax(close, w)[i] == RollingMin(close, w)[i]
    ensures Sub(RollingMax(close, w), close)[i] == Some(0.0)
    ensures Sub(close, RollingMin(close, w))[i] == Some(0.0)
  {
    RollingBracket(close, w, i);
  }

  // ---------------------------------------------------------------------
  // Ichimoku Kinko Hyo

  /** The lag of the chikou span, fixed whatever the windows. */
  const ChikouLag: nat := 26

  /** The midpoint of the rolling high and the rolling low. */
  function Sen(s: Series, w: Window): (r: Series)
    ensures |r| == |s|
  {
    Div(Add(RollingMax(s, w), RollingMin(s, w)), Const(|s|, 2.0))
  }

  /** `(tenka_sen + kijun_sen) / 2`, before it is moved forward. */
  function Midline(close: Series, tenkaWindow: Window, kijunWindow: Window): (r: Series)
    ensures |r| == |close|
  {
    Div(Add(Sen(close, tenkaWindow), Sen(close, kijunWindow)), Const(|close|, 2.0))
  }

  function SenkouSpanA(close: Series, tenkaWindow: Window, kijunWindow: Window): (r: Series)
    ensures |r| == |close|
  {
    Shift(Midline(close, tenkaWindow, kijunWindow), kijunWindow)
  }

  function SenkouSpanB(close: Series, kijunWindow: Window, senkouWindow: Window): (r: Series)
    ensures |r| == |close|
  {
    Shift(Sen(close, senkouWindow), kijunWindow)
  }

  function ChikouSpan(close: Series): (r: Series)
    ensures |r| == |close|
  {
    Shift(close, ChikouLag)
  }

  /** The midpoint line is defined on full windows and lies between the rolling low and high. */
  lemma SenBetween(s: Series, w: Window, i: nat)
    requires i < |s|
    ensures Sen(s, w)[i].Some? <==> Full(s, i, w)
    ensures Sen(s, w)[i].Some? ==>
      RollingMin(s, w)[i].value <= Sen(s, w)[i].value <= RollingMax(s, w)[i].value
  {
    RollingDefined(s, w, i);
    if Full(s, i, w) {
      RollingBracket(s, w, i);
    }
  }

  /**
   * Placement of the Ichimoku columns: both senkou spans are the midpoint
   * lines of `kijunWindow` rows earlier (missing before that), and the
   * chikou span is the price 26 rows earlier, whatever the windows are.
   */
  lemma IchimokuPlacement(close: Series, tenkaWindow: Window, kijunWindow: Window, senkouWindow: Window, i: nat)
    requires i < |close|
    ensures i < kijunWindow ==>
      SenkouSpanA(close, tenkaWindow, kijunWindow)[i] == None &&
      SenkouSpanB(close, kijunWindow, senkouWindow)[i] == None
    ensures kijunWindow <= i ==>
      var j := i - kijunWindow;
      var tenka, kijun := Sen(close, tenkaWindow)[j], Sen(close, kijunWindow)[j];
      SenkouSpanA(close, tenkaWindow, kijunWindow)[i] ==
        (if tenka.Some? && kijun.Some? then Some((tenka.value + kijun.value) / 2.0) else None) &&
      SenkouSpanB(close, kijunWindow, senkouWindow)[i] == Sen(close, senkouWindow)[j]
    ensures ChikouSpan(close)[i] == if i < 26 then None else close[i - 26]
  {
    SpansAt(close, tenkaWindow, kijunWindow, senkouWindow, i);
    if kijunWindow <= i {
      MidlineAt(close, tenkaWindow, kijunWindow, i - kijunWindow);
    }
  }

  lemma SpansAt(close: Series, tenkaWindow: Window, kijunWindow: Window, senkouWindow: Window, i: nat)
    requires i < |close|
    ensures SenkouSpanA(close, tenkaWindow, kijunWindow)[i] ==
      if i < kijunWindow then None else Midline(close, tenkaWindow, kijunWindow)[i - kijunWindow]
    ensures SenkouSpanB(close, kijunWindow, senkouWindow)[i] ==
      if i < kijunWindow then None else Sen(close, senkouWindow)[i - kijunWindow]
  {
  }

  lemma MidlineAt(close: Series, tenkaWindow: Window, kijunWindow: Window, j: nat)
    requires j < |close|
    ensures var tenka, kijun := Sen(close, tenkaWindow)[j], Sen(close, kijunWindow)[j];
      Midline(close, tenkaWindow, kijunWindow)[j] ==
        if tenka.Some? && kijun.Some? then Some((tenka.value + kijun.value) / 2.0) else None
  {
  }

  /**
   * Warm-up of the senkou spans: span A needs `kijunWindow` rows of lead
   * plus a full window of the longer of its two lines, span B the lead plus
   * a full senkou window.
   */
  lemma IchimokuWarmup(close: Series, tenkaWindow: Window, kijunWindow: Window, senkouWindow: Window, i: nat)
    requires i < |close|
    ensures SenkouSpanA(close, tenkaWindow, kijunWindow)[i].Some? ==>
      kijunWindow + tenkaWindow <= i + 1 && kijunWindow + kijunWindow <= i + 1
    ensures SenkouSpanB(close, kijunWindow, senkouWindow)[i].Some? ==>
      kijunWindow + senkouWindow <= i + 1
  {
    if SenkouSpanA(close, tenkaWindow, kijunWindow)[i].Some? {
      MidlineWarmup(close, tenkaWindow, kijunWindow, i - kijunWindow);
    }
    if SenkouSpanB(close, kijunWindow, senkouWindow)[i].Some? {
      SenBetween(close, senkouWindow, i - kijunWindow);
    }
  }

  lemma MidlineWarmup(close: Series, tenkaWindow: Window, kijunWindow: Window, j: nat)
    requires j < |close|
    ensures Midline(close, tenkaWindow, kijunWindow)[j].Some? ==> tenkaWindow <= j + 1 && kijunWindow <= j + 1
  {
    SenBetween(close, tenkaWindow, j);
    SenBetween(close, kijunWindow, j);
  }

  // ---------------------------------------------------------------------
  // Commodity channel index

  function MovingAverage(close: Series, w: Window): (r: Series)
    ensures |r| == |close|
  {
    RollingMean(close, w)
  }

  /** Rolling mean of `|close_j - MA_j|`, each term against its own row's average. */
  function MeanDeviation(close: Series, w: Window): (r: Series)
    ensures |r| == |close|
  {
    RollingMean(Abs(Sub(close, MovingAverage(close, w))), w)
  }

  /** `(close - MA) / (0.015 * MeanDeviation)`. */
  function Cci(close: Series, w: Window): (r: Series)
    ensures |r| == |close|
  {
    Div(Sub(close, MovingAverage(close, w)), Mul(Const(|close|, 0.015), MeanDeviation(close, w)))
  }

  /**
   * The index needs a full average window behind every term of the
   * deviation window, so it is missing for the first `2w - 2` rows.
   */
  lemma CciWarmup(close: Series, w: Window, i: nat)
    requires i < |close|
    requires i + 2 < 2 * w
    ensures MeanDeviation(close, w)[i] == None
    ensures Cci(close, w)[i] == None
  {
    var dev := Abs(Sub(close, MovingAverage(close, w)));
    RollingDefined(dev, w, i);
    if Full(dev, i, w) {
      var j := i + 1 - w;
      assert dev[j].Some?;
      RollingDefined(close, w, j);
    }
  }

  lemma ZeroQuotient(s: real, n: real)
    requires 0.0 < n && s / n == 0.0
    ensures s == 0.0
  {
    assert s == (s / n) * n;
  }

  /**
   * A zero mean deviation forces the current deviation to zero, so the
   * index is then the 0/0 NaN, never an infinity.
   */
  lemma CciZeroDeviation(close: Series, w: Window, i: nat)
    requires i < |close|
    requires MeanDeviation(close, w)[i] == Some(0.0)
    ensures Sub(close, MovingAverage(close, w))[i] == Some(0.0)
    ensures Cci(close, w)[i] == None
  {
    var dev := Abs(Sub(close, MovingAverage(close, w)));
    RollingDefined(dev, w, i);
    var v := WindowValues(dev, i, w).value;
    assert Mean(v) == 0.0;
    forall k | 0 <= k < |v| ensures 0.0 <= v[k] {
      assert v[k] == dev[i + 1 - w + k].value;
    }
    ZeroQuotient(Sum(v), w as real);
    ZeroSumOfNonNegative(v);
    assert v[w - 1] == dev[i].value;
    assert dev[i] == Some(0.0);
  }

  // ---------------------------------------------------------------------
  // Relative strength index: the split of the price change

  /** The change with every negative value set to zero (row 0 and gaps stay missing). */
  function Gains(change: Series): (r: Series)
    ensures |r| == |change|
  {
    seq(|change|, i requires 0 <= i < |change| =>
      if change[i].Some? && change[i].value < 0.0 then Some(0.0) else change[i])
  }

  /** The change with every positive value set to zero. */
  function Losses(change: Series): (r: Series)
    ensures |r| == |change|
  {
    seq(|change|, i requires 0 <= i < |change| =>
      if change[i].Some? && change[i].value > 0.0 then Some(0.0) else change[i])
  }

  /**
   * The up series is non-negative, the down series non-positive, both are
   * defined exactly where the change is, the two add up to the change, at
   * most one of them is non-zero (up is the positive part of the change,
   * down the negative part), and at row 0 all three are missing.
   */
  lemma RsiSplit(close: Series, i: nat)
    requires i < |close|
    ensures var d, up, down := Diff(close), Gains(Diff(close)), Losses(Diff(close));
      && (up[i].Some? <==> d[i].Some?) && (down[i].Some? <==> d[i].Some?)
      && (up[i].Some? ==> 0.0 <= up[i].value && down[i].value <= 0.0
                          && up[i].value + down[i].value == d[i].value)
      && (up[i].Some? ==> (up[i].value == 0.0 || down[i].value == 0.0)
                          && up[i].value == (if d[i].value < 0.0 then 0.0 else d[i].value)
                          && down[i].value == (if d[i].value > 0.0 then 0.0 else d[i].value))
      && (i == 0 ==> d[i] == None && up[i] == None && down[i] == None)
      && (i > 0 && close[i].Some? && close[i - 1].Some? ==> d[i] == Some(close[i].value - close[i - 1].value))
  {
  }

  // ---------------------------------------------------------------------
  // Bollinger bands

  function UpperBand(average: Series, sd: Series, numsd: real): (r: Series)
    requires |sd| == |average|
    ensures |r| == |average|
  {
    Add(average, Mul(sd, Const(|sd|, numsd)))
  }

  function LowerBand(average: Series, sd: Series, numsd: real): (r: Series)
    requires |sd| == |average|
    ensures |r| == |average|
  {
    Sub(average, Mul(sd, Const(|sd|, numsd)))
  }

  /**
   * The bands sit symmetrically around the average, are defined together,
   * and the upper one is on top when `numsd * sd` is non-negative (below
   * when it is non-positive).
   */
  lemma BandsAroundAverage(average: Series, sd: Series, numsd: real, i: nat)
    requires |sd| == |average| && i < |average|
    ensures var up, low := UpperBand(average, sd, numsd)[i], LowerBand(average, sd, numsd)[i];
      && (up.Some? <==> average[i].Some? && sd[i].Some?)
      && (low.Some? <==> up.Some?)
      && (up.Some? ==> up.value - average[i].value == average[i].value - low.value == sd[i].value * numsd)
      && (up.Some? && 0.0 <= sd[i].value && 0.0 <= numsd ==> low.value <= up.value)
      && (up.Some? && 0.0 <= sd[i].value && numsd <= 0.0 ==> up.value <= low.value)
  {
    if average[i].Some? && sd[i].Some? && 0.0 <= sd[i].value {
      if 0.0 <= numsd {
        assert 0.0 <= sd[i].value * numsd;
      } else {
        assert sd[i].value * numsd <= 0.0;
      }
    }
  }

  /**
   * A constant price over a full window with a zero deviation makes the
   * average and both bands equal to that price.
   */
  lemma BandsOfConstantPrice(close: Series, sd: Series, w: Window, numsd: real, i: nat, c: real)
    requires |sd| == |close| && i < |close| && w <= i + 1
    requires forall j :: i + 1 - w <= j <= i ==> close[j] == Some(c)
    requires sd[i] == Some(0.0)
    ensures RollingMean(close, w)[i] == Some(c)
    ensures UpperBand(RollingMean(close, w), sd, numsd)[i] == Some(c)
    ensures LowerBand(RollingMean(close, w), sd, numsd)[i] == Some(c)
  {
    RollingOfConstant(close, w, i, c);
  }
}
