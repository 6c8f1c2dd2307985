/**
 * Columns of a price table, indexed by row position. A missing value (the
 * NaN of a floating-point column) is `None`. The element-wise operators and
 * the rolling windows below follow the column arithmetic the indicators are
 * built from: a missing operand makes the result missing, a division by zero
 * makes it missing, and a comparison with a missing value is false.
 */
module Series {

  datatype Option<+T> = None | Some(value: T)

  /** A numeric column; `None` stands for NaN. */
  type Series = seq<Option<real>>

  /** A boolean column, such as the result of a comparison. */
  type Mask = seq<bool>

  /** A rolling-window length. */
  type Window = w: nat | 1 <= w witness 1

  /** A column holding the scalar `c` in every one of `n` rows (scalar broadcasting). */
  function Const(n: nat, c: real): (r: Series)
    ensures |r| == n
  {
    seq(n, _ => Some(c))
  }

  function Add(a: Series, b: Series): (r: Series)
    requires |a| == |b|
    ensures |r| == |a|
  {
    seq(|a|, i requires 0 <= i < |a| =>
      if a[i].Some? && b[i].Some? then Some(a[i].value + b[i].value) else None)
  }

  function Sub(a: Series, b: Series): (r: Series)
    requires |a| == |b|
    ensures |r| == |a|
  {
    seq(|a|, i requires 0 <= i < |a| =>
      if a[i].Some? && b[i].Some? then Some(a[i].value - b[i].value) else None)
  }

  function Mul(a: Series, b: Series): (r: Series)
    requires |a| == |b|
    ensures |r| == |a|
  {
    seq(|a|, i requires 0 <= i < |a| =>
      if a[i].Some? && b[i].Some? then Some(a[i].value * b[i].value) else None)
  }

  /** Division; a zero divisor gives a missing value. */
  function Div(a: Series, b: Series): (r: Series)
    requires |a| == |b|
    ensures |r| == |a|
  {
    seq(|a|, i requires 0 <= i < |a| =>
      if a[i].Some? && b[i].Some? && b[i].value != 0.0 then Some(a[i].value / b[i].value) else None)
  }

  function AbsValue(x: real): real {
    if x < 0.0 then -x else x
  }

  function Abs(a: Series): (r: Series)
    ensures |r| == |a|
  {
    seq(|a|, i requires 0 <= i < |a| => if a[i].Some? then Some(AbsValue(a[i].value)) else None)
  }

  /** `a < b` row by row; false wherever either side is missing. */
  function Lt(a: Series, b: Series): (r: Mask)
    requires |a| == |b|
    ensures |r| == |a|
  {
    seq(|a|, i requires 0 <= i < |a| => a[i].Some? && b[i].Some? && a[i].value < b[i].value)
  }

  /** `a > b` row by row, which is `b < a`. */
  function Gt(a: Series, b: Series): (r: Mask)
    requires |a| == |b|
    ensures |r| == |a|
  {
    Lt(b, a)
  }

  function And(m: Mask, k: Mask): (r: Mask)
    requires |m| == |k|
    ensures |r| == |m|
  {
    seq(|m|, i requires 0 <= i < |m| => m[i] && k[i])
  }

  function Or(m: Mask, k: Mask): (r: Mask)
    requires |m| == |k|
    ensures |r| == |m|
  {
    seq(|m|, i requires 0 <= i < |m| => m[i] || k[i])
  }

  function Not(m: Mask): (r: Mask)
    ensures |r| == |m|
  {
    seq(|m|, i requires 0 <= i < |m| => !m[i])
  }

  /** Moves every value `k` rows later; the first `k` rows become missing. */
  function Shift(s: Series, k: nat): (r: Series)
    ensures |r| == |s|
  {
    seq(|s|, i requires 0 <= i < |s| => if i < k then None else s[i - k])
  }

  /** Bar-over-bar change, `s - s.shift(1)`. */
  function Diff(s: Series): (r: Series)
    ensures |r| == |s|
  {
    Sub(s, Shift(s, 1))
  }

  // ---------------------------------------------------------------------
  // Aggregates over a run of defined values

  /** The values of `xs` when none is missing. */
  function Collect(xs: seq<Option<real>>): (r: Option<seq<real>>)
    ensures r.Some? <==> forall k :: 0 <= k < |xs| ==> xs[k].Some?
    ensures r.Some? ==> |r.value| == |xs| && forall k :: 0 <= k < |xs| ==> r.value[k] == xs[k].value
  {
    if |xs| == 0 then Some([])
    else if xs[0].None? then None
    else match Collect(xs[1..])
      case None => None
      case Some(rest) => Some([xs[0].value] + rest)
  }

  function Min(xs: seq<real>): (m: real)
    requires |xs| > 0
    ensures forall k :: 0 <= k < |xs| ==> m <= xs[k]
    ensures exists k :: 0 <= k < |xs| && xs[k] == m
  {
    if |xs| == 1 then xs[0]
    else
      var rest := Min(xs[1..]);
      if xs[0] <= rest then xs[0] else rest
  }

  function Max(xs: seq<real>): (m: real)
    requires |xs| > 0
    ensures forall k :: 0 <= k < |xs| ==> xs[k] <= m
    ensures exists k :: 0 <= k < |xs| && xs[k] == m
  {
    if |xs| == 1 then xs[0]
    else
      var rest := Max(xs[1..]);
      if rest <= xs[0] then xs[0] else rest
  }

  function Sum(xs: seq<real>): real {
    if |xs| == 0 then 0.0 else xs[0] + Sum(xs[1..])
  }

  function Mean(xs: seq<real>): real
    requires |xs| > 0
  {
    Sum(xs) / (|xs| as real)
  }

  lemma {:induction false} SumBounds(xs: seq<real>, lo: real, hi: real)
    requires forall k :: 0 <= k < |xs| ==> lo <= xs[k] <= hi
    ensures lo * (|xs| as real) <= Sum(xs) <= hi * (|xs| as real)
  {
    if |xs| > 0 {
      SumBounds(xs[1..], lo, hi);
      assert lo * (|xs| as real) == lo + lo * (|xs[1..]| as real);
      assert hi * (|xs| as real) == hi + hi * (|xs[1..]| as real);
    }
  }

  /** A quotient by a positive count keeps the bounds that the dividend obeys after scaling. */
  lemma QuotientBounds(s: real, n: real, lo: real, hi: real)
    requires n > 0.0 && lo * n <= s <= hi * n
    ensures lo <= s / n <= hi
  {
    var q := s / n;
    assert q * n == s;
  }

  /** A mean lies within any bounds that all its terms obey. */
  lemma MeanBounds(xs: seq<real>, lo: real, hi: real)
    requires |xs| > 0
    requires forall k :: 0 <= k < |xs| ==> lo <= xs[k] <= hi
    ensures lo <= Mean(xs) <= hi
  {
    SumBounds(xs, lo, hi);
    QuotientBounds(Sum(xs), |xs| as real, lo, hi);
  }

  /** A sum of non-negative terms is zero only when every term is. */
  lemma {:induction false} ZeroSumOfNonNegative(xs: seq<real>)
    requires forall k :: 0 <= k < |xs| ==> 0.0 <= xs[k]
    requires Sum(xs) == 0.0
    ensures forall k :: 0 <= k < |xs| ==> xs[k] == 0.0
  {
    if |xs| > 0 {
      SumNonNegative(xs[1..]);
      ZeroSumOfNonNegative(xs[1..]);
      forall k | 0 <= k < |xs| ensures xs[k] == 0.0 {
        if k > 0 { assert xs[k] == xs[1..][k - 1]; }
      }
    }
  }

  lemma {:induction false} SumNonNegative(xs: seq<real>)
    requires forall k :: 0 <= k < |xs| ==> 0.0 <= xs[k]
    ensures 0.0 <= Sum(xs)
  {
    if |xs| > 0 {
      SumNonNegative(xs[1..]);
    }
  }

  /** A window of `n` equal terms sums to `n` times that term. */
  lemma {:induction false} SumOfConstant(xs: seq<real>, c: real)
    requires forall k :: 0 <= k < |xs| ==> xs[k] == c
    ensures Sum(xs) == c * (|xs| as real)
  {
    if |xs| > 0 {
      SumOfConstant(xs[1..], c);
      assert c * (|xs| as real) == c + c * (|xs[1..]| as real);
    }
  }

  // ---------------------------------------------------------------------
  // Rolling windows of length w ending at row i; a window needs w rows
  // that are all defined (the minimum number of observations is the window).

  /** The window ending at row `i` has `w` rows and none of them is missing. */
  predicate Full(s: Series, i: nat, w: Window) {
    w <= i + 1 && i < |s| && forall j :: i + 1 - w <= j <= i ==> s[j].Some?
  }

  function WindowValues(s: Series, i: nat, w: Window): (r: Option<seq<real>>)
    requires i < |s|
    ensures r.Some? <==> Full(s, i, w)
    ensures r.Some? ==> |r.value| == w && forall k :: 0 <= k < w ==> r.value[k] == s[i + 1 - w + k].value
  {
    if i + 1 < w then None
    else
      var win := s[i + 1 - w..i + 1];
      var r := Collect(win);
      assert r.Some? ==> forall k :: 0 <= k < w ==> r.value[k] == s[i + 1 - w + k].value;
      assert r.Some? <==> Full(s, i, w) by {
        if r.Some? {
          forall j | i + 1 - w <= j <= i ensures s[j].Some? {
            assert win[j - (i + 1 - w)] == s[j];
          }
        }
        if Full(s, i, w) {
          forall k | 0 <= k < w ensures win[k].Some? {
            assert win[k] == s[i + 1 - w + k];
          }
        }
      }
      r
  }

  function RollingMin(s: Series, w: Window): (r: Series)
    ensures |r| == |s|
  {
    seq(|s|, i requires 0 <= i < |s| =>
      match WindowValues(s, i, w)
      case None => None
      case Some(v) => Some(Min(v)))
  }

  function RollingMax(s: Series, w: Window): (r: Series)
    ensures |r| == |s|
  {
    seq(|s|, i requires 0 <= i < |s| =>
      match WindowValues(s, i, w)
      case None => None
      case Some(v) => Some(Max(v)))
  }

  function RollingMean(s: Series, w: Window): (r: Series)
    ensures |r| == |s|
  {
    seq(|s|, i requires 0 <= i < |s| =>
      match WindowValues(s, i, w)
      case None => None
      case Some(v) => Some(Mean(v)))
  }

  /**
   * A rolling minimum, maximum or mean is defined exactly on full windows,
   * so in particular it is missing for the first `w - 1` rows.
   */
  lemma RollingDefined(s: Series, w: Window, i: nat)
    requires i < |s|
    ensures RollingMin(s, w)[i].Some? <==> Full(s, i, w)
    ensures RollingMax(s, w)[i].Some? <==> Full(s, i, w)
    ensures RollingMean(s, w)[i].Some? <==> Full(s, i, w)
    ensures i + 1 < w ==> RollingMin(s, w)[i] == None && RollingMax(s, w)[i] == None && RollingMean(s, w)[i] == None
  {
  }

  /**
   * On a full window, every row of the window (the current row included)
   * lies between the rolling minimum and the rolling maximum, one row of
   * the window attains each of them, and the mean lies between the two.
   */
  lemma RollingBracket(s: Series, w: Window, i: nat)
    requires Full(s, i, w)
    ensures RollingMin(s, w)[i].Some? && RollingMax(s, w)[i].Some? && RollingMean(s, w)[i].Some?
    ensures forall j :: i + 1 - w <= j <= i ==>
      RollingMin(s, w)[i].value <= s[j].value <= RollingMax(s, w)[i].value
    ensures exists j :: i + 1 - w <= j <= i && s[j].value == RollingMin(s, w)[i].value
    ensures exists j :: i + 1 - w <= j <= i && s[j].value == RollingMax(s, w)[i].value
    ensures RollingMin(s, w)[i].value <= RollingMean(s, w)[i].value <= RollingMax(s, w)[i].value
  {
    var v := WindowValues(s, i, w).value;
    forall j | i + 1 - w <= j <= i
      ensures RollingMin(s, w)[i].value <= s[j].value <= RollingMax(s, w)[i].value
    {
      assert v[j - (i + 1 - w)] == s[j].value;
    }
    var kMin :| 0 <= kMin < |v| && v[kMin] == Min(v);
    assert s[i + 1 - w + kMin].value == RollingMin(s, w)[i].value;
    var kMax :| 0 <= kMax < |v| && v[kMax] == Max(v);
    assert s[i + 1 - w + kMax].value == RollingMax(s, w)[i].value;
    MeanBounds(v, Min(v), Max(v));
  }

  /** The rolling mean of a window whose values all obey two bounds obeys them too. */
  lemma RollingMeanBounds(s: Series, w: Window, i: nat, lo: real, hi: real)
    requires i < |s|
    requires forall j :: 0 <= j < |s| && s[j].Some? ==> lo <= s[j].value <= hi
    ensures RollingMean(s, w)[i].Some? ==> lo <= RollingMean(s, w)[i].value <= hi
  {
    if Full(s, i, w) {
      var v := WindowValues(s, i, w).value;
      forall k | 0 <= k < |v| ensures lo <= v[k] <= hi {
        assert v[k] == s[i + 1 - w + k].value;
      }
      MeanBounds(v, lo, hi);
    }
  }

  /** On a window of one repeated value the rolling mean, minimum and maximum are that value. */
  lemma RollingOfConstant(s: Series, w: Window, i: nat, c: real)
    requires i < |s| && w <= i + 1
    requires forall j :: i + 1 - w <= j <= i ==> s[j] == Some(c)
    ensures RollingMean(s, w)[i] == Some(c)
    ensures RollingMin(s, w)[i] == Some(c) && RollingMax(s, w)[i] == Some(c)
  {
    var v := WindowValues(s, i, w).value;
    forall k | 0 <= k < |v| ensures v[k] == c {
      assert v[k] == s[i + 1 - w + k].value;
    }
    SumOfConstant(v, c);
    QuotientBounds(Sum(v), w as real, c, c);
    RollingBracket(s, w, i);
  }
}
