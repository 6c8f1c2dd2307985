/**
 * The crossing predicates of the six signalling indicators. Each compares
 * the current row with the row before it (`shift(1)`), with the operators of
 * the indicator exactly as it writes them, and selects the rows where the
 * predicate holds together with the value recorded there (the price, or the
 * fast line for the moving-average crossover).
 */
module Crossings {
  import opened Series
  import opened Frames

  /** A row where a crossing fired and the value recorded at it. */
  datatype Event = Event(row: nat, value: Option<real>)

  /** Rows where the up-crossing (buy) predicate holds. */
  function UpMask(f: Frame): (r: Mask)
    requires Aligned(f)
    ensures |r| == |f.price|
  {
    var n := |f.price|;
    match f
    case WilliamsRFrame(_, wr) =>
      And(Gt(Shift(wr, 1), Const(n, 20.0)), Lt(wr, Const(n, 20.0)))
    case EmaFrame(_, fast, slow) =>
      And(Lt(Shift(fast, 1), Shift(slow, 1)), Gt(fast, slow))
    case BollingerFrame(price, _, _, lower, _) =>
      And(Gt(Shift(price, 1), Shift(lower, 1)), Lt(price, lower))
    case StochasticFrame(_, k, d) =>
      And(And(Lt(k, Const(n, 20.0)), Lt(Shift(d, 1), Shift(k, 1))), Gt(d, k))
    case IchimokuFrame(_, _, _, a, b, _) =>
      And(Lt(Shift(a, 1), Shift(b, 1)), Gt(a, b))
    case RsiFrame(_, rsi) =>
      And(Gt(Shift(rsi, 1), Const(n, 30.0)), Lt(rsi, Const(n, 30.0)))
  }

  /** Rows where the down-crossing (sell) predicate holds. */
  function DownMask(f: Frame): (r: Mask)
    requires Aligned(f)
    ensures |r| == |f.price|
  {
    var n := |f.price|;
    match f
    case WilliamsRFrame(_, wr) =>
      And(Lt(Shift(wr, 1), Const(n, 80.0)), Gt(wr, Const(n, 80.0)))
    case EmaFrame(_, fast, slow) =>
      And(Gt(Shift(fast, 1), Shift(slow, 1)), Lt(fast, slow))
    case BollingerFrame(price, _, upper, _, _) =>
      And(Lt(Shift(price, 1), Shift(upper, 1)), Gt(price, upper))
    case StochasticFrame(_, k, d) =>
      And(And(Gt(k, Const(n, 80.0)), Gt(Shift(d, 1), Shift(k, 1))), Lt(d, k))
    case IchimokuFrame(_, _, _, a, b, _) =>
      And(Gt(Shift(a, 1), Shift(b, 1)), Lt(a, b))
    case RsiFrame(_, rsi) =>
      And(Lt(Shift(rsi, 1), Const(n, 70.0)), Gt(rsi, Const(n, 70.0)))
  }

  /** The column whose value an event records: the fast line for the crossover, else the price. */
  function Recorded(f: Frame): (r: Series)
    requires Aligned(f)
    ensures |r| == |f.price|
  {
    if f.EmaFrame? then f.fast else f.price
  }

  /** The rows of `mask` that hold, in row order, with the value of `values` there. */
  function Select(mask: Mask, values: Series): (r: seq<Event>)
    requires |mask| == |values|
    ensures forall k :: 0 <= k < |r| ==>
      r[k].row < |mask| && mask[r[k].row] && r[k].value == values[r[k].row]
    ensures forall k, l :: 0 <= k < l < |r| ==> r[k].row < r[l].row
    ensures forall i :: 0 <= i < |mask| && mask[i] ==> exists k :: 0 <= k < |r| && r[k].row == i
    decreases |mask|
  {
    if |mask| == 0 then []
    else
      var last := |mask| - 1;
      var rest := Select(mask[..last], values[..last]);
      var r := rest + (if mask[last] then [Event(last, values[last])] else []);
      assert forall i :: 0 <= i < last && mask[i] ==> mask[..last][i];
      assert forall k :: 0 <= k < |rest| ==> r[k] == rest[k];
      assert mask[last] ==> r[|rest|].row == last;
      r
  }

  function UpCross(f: Frame): (r: seq<Event>)
    requires Aligned(f)
  {
    Select(UpMask(f), Recorded(f))
  }

  function DownCross(f: Frame): (r: seq<Event>)
    requires Aligned(f)
  {
    Select(DownMask(f), Recorded(f))
  }

  // ---------------------------------------------------------------------
  // The predicates restated row by row

  /** The value one row earlier, missing at row 0. */
  function Prev(s: Series, i: nat): Option<real>
    requires i < |s|
  {
    if i == 0 then None else s[i - 1]
  }

  /** `x < y` on possibly missing values. */
  predicate Below(x: Option<real>, y: Option<real>) {
    x.Some? && y.Some? && x.value < y.value
  }

  /** The up-crossing rule of each indicator, stated on the values of row `i` and row `i - 1`. */
  predicate UpRule(f: Frame, i: nat)
    requires Aligned(f) && i < |f.price|
  {
    match f
    case WilliamsRFrame(_, wr) => Below(Some(20.0), Prev(wr, i)) && Below(wr[i], Some(20.0))
    case EmaFrame(_, fast, slow) => Below(Prev(fast, i), Prev(slow, i)) && Below(slow[i], fast[i])
    case BollingerFrame(p, _, _, low, _) => Below(Prev(low, i), Prev(p, i)) && Below(p[i], low[i])
    case StochasticFrame(_, k, d) =>
      Below(k[i], Some(20.0)) && Below(Prev(d, i), Prev(k, i)) && Below(k[i], d[i])
    case IchimokuFrame(_, _, _, a, b, _) => Below(Prev(a, i), Prev(b, i)) && Below(b[i], a[i])
    case RsiFrame(_, rsi) => Below(Some(30.0), Prev(rsi, i)) && Below(rsi[i], Some(30.0))
  }

  /** The down-crossing rule of each indicator, stated on the values of row `i` and row `i - 1`. */
  predicate DownRule(f: Frame, i: nat)
    requires Aligned(f) && i < |f.price|
  {
    match f
    case WilliamsRFrame(_, wr) => Below(Prev(wr, i), Some(80.0)) && Below(Some(80.0), wr[i])
    case EmaFrame(_, fast, slow) => Below(Prev(slow, i), Prev(fast, i)) && Below(fast[i], slow[i])
    case BollingerFrame(p, _, up, _, _) => Below(Prev(p, i), Prev(up, i)) && Below(up[i], p[i])
    case StochasticFrame(_, k, d) =>
      Below(Some(80.0), k[i]) && Below(Prev(k, i), Prev(d, i)) && Below(d[i], k[i])
    case IchimokuFrame(_, _, _, a, b, _) => Below(Prev(b, i), Prev(a, i)) && Below(a[i], b[i])
    case RsiFrame(_, rsi) => Below(Prev(rsi, i), Some(70.0)) && Below(Some(70.0), rsi[i])
  }

  /** The column expressions compute exactly the row-by-row rules. */
  lemma MasksFollowRules(f: Frame, i: nat)
    requires Aligned(f) && i < |f.price|
    ensures UpMask(f)[i] == UpRule(f, i)
    ensures DownMask(f)[i] == DownRule(f, i)
  {
  }

  /** The columns an indicator's up-crossing rule compares. */
  function UpInputs(f: Frame): (r: seq<Series>)
    requires Aligned(f)
    ensures forall c :: c in r ==> |c| == |f.price|
  {
    match f
    case WilliamsRFrame(_, wr) => [wr]
    case EmaFrame(_, fast, slow) => [fast, slow]
    case BollingerFrame(p, _, _, low, _) => [p, low]
    case StochasticFrame(_, k, d) => [k, d]
    case IchimokuFrame(_, _, _, a, b, _) => [a, b]
    case RsiFrame(_, rsi) => [rsi]
  }

  /** The columns an indicator's down-crossing rule compares. */
  function DownInputs(f: Frame): (r: seq<Series>)
    requires Aligned(f)
    ensures forall c :: c in r ==> |c| == |f.price|
  {
    match f
    case WilliamsRFrame(_, wr) => [wr]
    case EmaFrame(_, fast, slow) => [fast, slow]
    case BollingerFrame(p, _, up, _, _) => [p, up]
    case StochasticFrame(_, k, d) => [k, d]
    case IchimokuFrame(_, _, _, a, b, _) => [a, b]
    case RsiFrame(_, rsi) => [rsi]
  }

  /**
   * No crossing fires at row 0, nor on a row where any compared column is
   * missing on that row or on the row before.
   */
  lemma CrossingNeedsTwoDefinedRows(f: Frame, i: nat)
    requires Aligned(f) && i < |f.price|
    ensures UpMask(f)[i] ==> 1 <= i && forall c: Series :: c in UpInputs(f) ==> c[i].Some? && c[i - 1].Some?
    ensures DownMask(f)[i] ==> 1 <= i && forall c: Series :: c in DownInputs(f) ==> c[i].Some? && c[i - 1].Some?
  {
    MasksFollowRules(f, i);
  }

  /** No row is both an up- and a down-crossing. */
  predicate Exclusive(f: Frame)
    requires Aligned(f)
  {
    forall i :: 0 <= i < |f.price| ==> !(UpMask(f)[i] && DownMask(f)[i])
  }

  /**
   * The up- and down-crossing predicates of every indicator exclude each
   * other: the current rows conflict (%R above 80 and below 20, fast above
   * and below slow, %K above 80 and below 20, span A above and below span B,
   * RSI above 70 and below 30), and for the Bollinger bands the current rows
   * conflict when the upper band is on top and the previous rows when it is
   * below.
   */
  lemma CrossingsExclusive(f: Frame)
    requires Aligned(f) && BandsOrdered(f)
    ensures Exclusive(f)
  {
    forall i | 0 <= i < |f.price| ensures !(UpMask(f)[i] && DownMask(f)[i]) {
      MasksFollowRules(f, i);
      if f.BollingerFrame? && i > 0 {
        var up, low := f.upperBand, f.lowerBand;
        assert up[i].Some? && low[i].Some? ==> low[i].value <= up[i].value || up[i].value <= low[i].value;
        assert up[i - 1].Some? && low[i - 1].Some? ==>
          low[i - 1].value <= up[i - 1].value || up[i - 1].value <= low[i - 1].value;
      }
    }
  }

  /** The recorded events: exactly the rows of the masks, in row order, carrying the recorded value. */
  lemma EventsAreMaskRows(f: Frame, i: nat)
    requires Aligned(f) && i < |f.price|
    ensures UpMask(f)[i] <==> exists k :: 0 <= k < |UpCross(f)| && UpCross(f)[k].row == i
    ensures DownMask(f)[i] <==> exists k :: 0 <= k < |DownCross(f)| && DownCross(f)[k].row == i
    ensures forall k :: 0 <= k < |UpCross(f)| ==> UpCross(f)[k].value == Recorded(f)[UpCross(f)[k].row]
    ensures forall k :: 0 <= k < |DownCross(f)| ==> DownCross(f)[k].value == Recorded(f)[DownCross(f)[k].row]
  {
    SelectRows(UpMask(f), Recorded(f), i);
    SelectRows(DownMask(f), Recorded(f), i);
    assert UpCross(f) == Select(UpMask(f), Recorded(f));
    assert DownCross(f) == Select(DownMask(f), Recorded(f));
  }

  lemma SelectRows(mask: Mask, values: Series, i: nat)
    requires |mask| == |values| && i < |mask|
    ensures mask[i] <==> exists k :: 0 <= k < |Select(mask, values)| && Select(mask, values)[k].row == i
  {
    var r := Select(mask, values);
    if k :| 0 <= k < |r| && r[k].row == i {
      assert mask[r[k].row];
      assert Select(mask, values)[k].row == i;
    } else {
      assert !mask[i];
    }
  }

  /** The two event series never share a row. */
  lemma EventsDisjoint(f: Frame)
    requires Aligned(f) && BandsOrdered(f)
    ensures forall k, l :: 0 <= k < |UpCross(f)| && 0 <= l < |DownCross(f)| ==>
      UpCross(f)[k].row != DownCross(f)[l].row
  {
    CrossingsExclusive(f);
  }
}
