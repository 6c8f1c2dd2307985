/**
 * The indicator objects. Every signalling indicator builds its table from
 * the price column, computes its up- and down-crossing events, and writes
 * the side column: +1 at up events and -1 at down events, filled forward.
 * The Ichimoku indicator then sets the rows in or on the cloud to 0, the RSI
 * indicator the rows strictly inside its 30-70 band. The commodity channel
 * index builds its table only. Calling an indicator returns its table.
 */
module Technical {
  import opened Series
  import opened Columns
  import opened Frames
  import opened Crossings
  import opened Signal

  /** The side column after the forward fill, before any neutral override. */
  function Filled(f: Frame): (r: Series)
    requires Aligned(f)
    ensures |r| == |f.price|
  {
    FFill(Marks(|f.price|, UpCross(f), DownCross(f)))
  }

  /**
   * Ichimoku rows to neutralise: with `a` = span A below the price and `b` =
   * the price below span B, the rows where `(a && b) || (!a && !b)`. A
   * comparison with a missing value is false, so a row where both spans are
   * missing is such a row.
   */
  function CloudMask(f: Frame): (r: Mask)
    requires Aligned(f) && f.IchimokuFrame?
    ensures |r| == |f.price|
  {
    var a := Lt(f.senkouSpanA, f.price);
    var b := Lt(f.price, f.senkouSpanB);
    Or(And(a, b), And(Not(a), Not(b)))
  }

  /** RSI rows to neutralise: `30 < RSI < 70`. */
  function NeutralBand(f: Frame): (r: Mask)
    requires Aligned(f) && f.RsiFrame?
    ensures |r| == |f.price|
  {
    var n := |f.price|;
    And(Gt(f.rsi, Const(n, 30.0)), Lt(f.rsi, Const(n, 70.0)))
  }

  /** The side column an indicator ends with. */
  function FinalSide(f: Frame): (r: Series)
    requires Aligned(f)
    ensures |r| == |f.price|
  {
    match f
    case IchimokuFrame(_, _, _, _, _, _) => Override(Filled(f), CloudMask(f))
    case RsiFrame(_, _) => Override(Filled(f), NeutralBand(f))
    case _ => Filled(f)
  }

  /** An up- or down-crossing fires on row `j`. */
  predicate IsEvent(f: Frame, j: nat)
    requires Aligned(f) && j < |f.price|
  {
    UpMask(f)[j] || DownMask(f)[j]
  }

  /** The unfilled side column holds +1 on up rows, -1 on down rows and nothing else. */
  lemma MarksOfCrossings(f: Frame)
    requires Aligned(f)
    ensures Marks(|f.price|, UpCross(f), DownCross(f)) == SignColumn(UpMask(f), DownMask(f))
  {
    forall i | 0 <= i < |f.price|
      ensures Marks(|f.price|, UpCross(f), DownCross(f))[i] == SignColumn(UpMask(f), DownMask(f))[i]
    {
      EventsAreMaskRows(f, i);
    }
  }

  /**
   * The forward-filled side: missing exactly on the rows before the first
   * event, otherwise the sign of the latest event at or before the row; it
   * changes from one row to the next only on an event row.
   */
  lemma SideFollowsLatestEvent(f: Frame, i: nat)
    requires Aligned(f) && i < |f.price|
    ensures Filled(f)[i] == None <==> forall j :: 0 <= j <= i ==> !IsEvent(f, j)
    ensures forall j :: 0 <= j <= i && IsEvent(f, j) && (forall m :: j < m <= i ==> !IsEvent(f, m)) ==>
      Filled(f)[i] == if UpMask(f)[j] then Some(1.0) else Some(-1.0)
    ensures 0 < i && Filled(f)[i] != Filled(f)[i - 1] ==> IsEvent(f, i)
  {
    var up, down := UpMask(f), DownMask(f);
    MarksOfCrossings(f);
    assert Filled(f) == FFill(SignColumn(up, down));
    SignFillMissing(up, down, i);
    assert forall j :: 0 <= j <= i ==> (IsEvent(f, j) <==> up[j] || down[j]);
    forall j | 0 <= j <= i && IsEvent(f, j) && (forall m :: j < m <= i ==> !IsEvent(f, m))
      ensures Filled(f)[i] == if up[j] then Some(1.0) else Some(-1.0)
    {
      SignFillLatest(up, down, j, i);
    }
    if 0 < i {
      FillChangesOnlyAtMarks(SignColumn(up, down), i);
    }
  }

  /** Before an override the side is missing, +1 or -1; the override adds only 0. */
  lemma SideValues(f: Frame, i: nat)
    requires Aligned(f) && i < |f.price|
    ensures Filled(f)[i] in {None, Some(1.0), Some(-1.0)}
    ensures FinalSide(f)[i] in {None, Some(1.0), Some(-1.0), Some(0.0)}
    ensures !f.IchimokuFrame? && !f.RsiFrame? ==> FinalSide(f)[i] == Filled(f)[i]
  {
    MarksOfCrossings(f);
    SignFillValues(UpMask(f), DownMask(f), i);
  }

  /**
   * The Ichimoku side is 0 exactly on the rows where "span A below the
   * price" and "the price below span B" are both true or both false, which
   * includes every row where the price or both spans are missing; every
   * other row keeps its forward-filled value.
   */
  lemma IchimokuOverride(f: Frame, i: nat)
    requires Aligned(f) && f.IchimokuFrame? && i < |f.price|
    ensures FinalSide(f)[i] == Some(0.0) <==>
      (Below(f.senkouSpanA[i], f.price[i]) <==> Below(f.price[i], f.senkouSpanB[i]))
    ensures !(Below(f.senkouSpanA[i], f.price[i]) <==> Below(f.price[i], f.senkouSpanB[i])) ==>
      FinalSide(f)[i] == Filled(f)[i]
    ensures f.price[i] == None || (f.senkouSpanA[i] == None && f.senkouSpanB[i] == None) ==>
      FinalSide(f)[i] == Some(0.0)
  {
    SideValues(f, i);
  }

  /**
   * On the Ichimoku table of a price column, a row too early for either
   * senkou span to be defined is neutral (0), not missing.
   */
  lemma IchimokuWarmupNeutral(close: Series, tenkaWindow: Window, kijunWindow: Window, senkouWindow: Window, i: nat)
    requires i < |close|
    requires i + 1 < kijunWindow + tenkaWindow || i + 1 < kijunWindow + kijunWindow
    requires i + 1 < kijunWindow + senkouWindow
    ensures FinalSide(IchimokuTable(close, tenkaWindow, kijunWindow, senkouWindow))[i] == Some(0.0)
  {
    var f := IchimokuTable(close, tenkaWindow, kijunWindow, senkouWindow);
    IchimokuWarmup(close, tenkaWindow, kijunWindow, senkouWindow, i);
    IchimokuOverride(f, i);
  }

  /**
   * The RSI side is 0 exactly on the rows where the RSI is defined and
   * strictly between 30 and 70; every other row, a row with a missing RSI
   * included, keeps its forward-filled value.
   */
  lemma RsiOverride(f: Frame, i: nat)
    requires Aligned(f) && f.RsiFrame? && i < |f.price|
    ensures FinalSide(f)[i] == Some(0.0) <==> f.rsi[i].Some? && 30.0 < f.rsi[i].value < 70.0
    ensures !(f.rsi[i].Some? && 30.0 < f.rsi[i].value < 70.0) ==> FinalSide(f)[i] == Filled(f)[i]
  {
    SideValues(f, i);
  }

  // ---------------------------------------------------------------------
  // The indicator objects

  /** A signalling indicator: its table, its two event series and its side column. */
  class Indicator {
    var data: Frame
    var switchUp: seq<Event>
    var switchDown: seq<Event>
    var side: array<Option<real>>

    /** The events and the side column are those the table defines. */
    ghost predicate Valid()
      reads this, side
    {
      && Aligned(data)
      && switchUp == UpCross(data)
      && switchDown == DownCross(data)
      && side[..] == FinalSide(data)
    }

    /** Williams %R over `window` rows. */
    constructor WilliamsR(close: Series, window: Window := 14)
      ensures data == WilliamsRTable(close, window)
      ensures Valid() && fresh(side)
    {
      data := WilliamsRTable(close, window);
      switchUp, switchDown, side := [], [], new Option<real>[0];
      new;
      Switch();
    }

    /**
     * The moving-average crossover; `fast` and `slow` are the two smoothed
     * price lines (exponential weighting with 3 and 7 by default).
     */
    constructor Ema(close: Series, fast: Series, slow: Series)
      requires |fast| == |close| && |slow| == |close|
      ensures data == EmaTable(close, fast, slow)
      ensures Valid() && fresh(side)
    {
      data := EmaTable(close, fast, slow);
      switchUp, switchDown, side := [], [], new Option<real>[0];
      new;
      Switch();
    }

    /** Bollinger bands `numsd` deviations around the rolling mean; `sd` is the rolling population deviation. */
    constructor BollingerBands(close: Series, sd: Series, window: Window := 20, numsd: real := 2.0)
      requires |sd| == |close|
      requires forall i :: 0 <= i < |sd| && sd[i].Some? ==> 0.0 <= sd[i].value
      ensures data == BollingerTable(close, sd, window, numsd)
      ensures Valid() && fresh(side)
    {
      data := BollingerTable(close, sd, window, numsd);
      switchUp, switchDown, side := [], [], new Option<real>[0];
      new;
      Switch();
    }

    /** The stochastic oscillator: %K over `window` rows, %D its mean over `stochWindow`. */
    constructor Stochastic(close: Series, window: Window := 20, stochWindow: Window := 3)
      ensures data == StochasticTable(close, window, stochWindow)
      ensures Valid() && fresh(side)
    {
      data := StochasticTable(close, window, stochWindow);
      switchUp, switchDown, side := [], [], new Option<real>[0];
      new;
      Switch();
    }

    /** Ichimoku Kinko Hyo; after the forward fill, the cloud rows are set to 0. */
    constructor Ichimoku(close: Series, tenkaWindow: Window := 9, kijunWindow: Window := 26,
                         senkouWindow: Window := 52)
      ensures data == IchimokuTable(close, tenkaWindow, kijunWindow, senkouWindow)
      ensures Valid() && fresh(side)
    {
      data := IchimokuTable(close, tenkaWindow, kijunWindow, senkouWindow);
      switchUp, switchDown, side := [], [], new Option<real>[0];
      new;
      Switch();
      Neutralize(side, CloudMask(data));
    }

    /**
     * The relative strength index; `rsi` is computed from the smoothed gains
     * and losses. After the forward fill, the rows strictly inside 30-70 are
     * set to 0.
     */
    constructor Rsi(close: Series, rsi: Series)
      requires |rsi| == |close|
      ensures data == RsiTable(close, rsi)
      ensures Valid() && fresh(side)
    {
      data := RsiTable(close, rsi);
      switchUp, switchDown, side := [], [], new Option<real>[0];
      new;
      Switch();
      Neutralize(side, NeutralBand(data));
    }

    /**
     * The shared side assignment: records the up and down events, writes +1
     * and -1 on their rows of a fresh side column and fills it forward.
     */
    method Switch()
      requires Aligned(data) && BandsOrdered(data)
      modifies this
      ensures data == old(data)
      ensures switchUp == UpCross(data) && switchDown == DownCross(data)
      ensures fresh(side) && side[..] == Filled(data)
    {
      switchUp := UpCross(data);
      switchDown := DownCross(data);
      EventsDisjoint(data);
      assert switchUp == Select(UpMask(data), Recorded(data));
      assert switchDown == Select(DownMask(data), Recorded(data));
      var column := PlaceEvents(|data.price|, switchUp, switchDown);
      FillForward(column);
      side := column;
    }

    /** Calling the indicator returns its table, unchanged, with the side column that table defines. */
    method Call() returns (table: Frame, sideColumn: Series)
      requires Valid()
      ensures table == data && sideColumn == side[..]
      ensures Aligned(table) && sideColumn == FinalSide(table)
    {
      table, sideColumn := data, side[..];
    }
  }

  /** The commodity channel index: a table only, without events or side. */
  class CommodityChannelIndex {
    const data: CciFrame

    constructor (close: Series, window: Window := 20)
      ensures data == CciTable(close, window)
    {
      data := CciTable(close, window);
    }

    /** Calling the indicator returns its table, unchanged. */
    method Call() returns (table: CciFrame)
      ensures table == data
    {
      table := data;
    }
  }
}
