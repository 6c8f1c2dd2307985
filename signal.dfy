/**
 * The shared side-assignment of the signalling indicators: the events
 * become +1 (up) and -1 (down) on their rows, every other row is missing,
 * and the column is then filled forward so that each row carries the sign
 * of the latest event at or before it. Two indicators afterwards overwrite
 * some rows with 0.
 */
module Signal {
  import opened Series
  import opened Crossings

  /** Row `i` is the row of one of the events. */
  predicate RowIn(i: nat, events: seq<Event>) {
    exists k :: 0 <= k < |events| && events[k].row == i
  }

  /** The unfilled side column: +1 on up rows, -1 on down rows, missing elsewhere. */
  function Marks(n: nat, ups: seq<Event>, downs: seq<Event>): (r: Series)
    ensures |r| == n
  {
    seq(n, (i: int) requires 0 <= i < n => if RowIn(i, ups) then Some(1.0) else if RowIn(i, downs) then Some(-1.0) else None)
  }

  /** The latest defined value at or before row `i`, missing if there is none. */
  function Latest(s: Series, i: nat): Option<real>
    requires i < |s|
  {
    if s[i].Some? then s[i] else if i == 0 then None else Latest(s, i - 1)
  }

  /** Forward fill: every row takes the latest defined value at or before it. */
  function FFill(s: Series): (r: Series)
    ensures |r| == |s|
  {
    seq(|s|, i requires 0 <= i < |s| => Latest(s, i))
  }

  /** Rows of `mask` are set to 0, every other row is kept. */
  function Override(s: Series, mask: Mask): (r: Series)
    requires |mask| == |s|
    ensures |r| == |s|
  {
    seq(|s|, i requires 0 <= i < |s| => if mask[i] then Some(0.0) else s[i])
  }

  /** A filled row is missing exactly when no row at or before it is defined. */
  lemma {:induction false} LatestMissing(s: Series, i: nat)
    requires i < |s|
    ensures Latest(s, i) == None <==> forall j :: 0 <= j <= i ==> s[j] == None
  {
    if s[i].None? && i > 0 {
      LatestMissing(s, i - 1);
    }
  }

  /** A filled row carries the value of the last defined row at or before it. */
  lemma {:induction false} LatestIsLastDefined(s: Series, j: nat, i: nat)
    requires j <= i < |s| && s[j].Some?
    requires forall m :: j < m <= i ==> s[m] == None
    ensures Latest(s, i) == s[j]
    decreases i
  {
    if i > j {
      LatestIsLastDefined(s, j, i - 1);
    }
  }

  /** A defined filled row comes from a defined row at or before it with nothing defined in between. */
  lemma {:induction false} LatestHasSource(s: Series, i: nat)
    requires i < |s| && Latest(s, i).Some?
    ensures exists j :: 0 <= j <= i && s[j] == Latest(s, i) && forall m :: j < m <= i ==> s[m] == None
  {
    if s[i].None? {
      assert i > 0;
      LatestHasSource(s, i - 1);
      var j :| 0 <= j <= i - 1 && s[j] == Latest(s, i - 1) && forall m :: j < m <= i - 1 ==> s[m] == None;
      assert forall m :: j < m <= i ==> s[m] == None;
    }
  }

  /** The filled column changes from one row to the next only on a defined row. */
  lemma FillChangesOnlyAtMarks(s: Series, i: nat)
    requires 0 < i < |s|
    ensures FFill(s)[i] != FFill(s)[i - 1] ==> s[i].Some? && FFill(s)[i] == s[i]
  {
  }

  /** The unfilled side column stated on the two masks: +1 where `up` holds, -1 where `down` holds. */
  function SignColumn(up: Mask, down: Mask): (r: Series)
    requires |up| == |down|
    ensures |r| == |up|
  {
    seq(|up|, i requires 0 <= i < |up| => if up[i] then Some(1.0) else if down[i] then Some(-1.0) else None)
  }

  /** The filled sign column is missing exactly before the first row where either mask holds. */
  lemma SignFillMissing(up: Mask, down: Mask, i: nat)
    requires |up| == |down| && i < |up|
    ensures FFill(SignColumn(up, down))[i] == None <==> forall j :: 0 <= j <= i ==> !up[j] && !down[j]
  {
    var s := SignColumn(up, down);
    LatestMissing(s, i);
    assert forall j :: 0 <= j <= i ==> (s[j] == None <==> !up[j] && !down[j]);
  }

  /** After an event row `j` and up to the next one, the filled column carries the sign of row `j`. */
  lemma SignFillLatest(up: Mask, down: Mask, j: nat, i: nat)
    requires |up| == |down| && j <= i < |up| && (up[j] || down[j])
    requires forall m :: j < m <= i ==> !up[m] && !down[m]
    ensures FFill(SignColumn(up, down))[i] == if up[j] then Some(1.0) else Some(-1.0)
  {
    LatestIsLastDefined(SignColumn(up, down), j, i);
  }

  /** The filled sign column holds only -1, +1 or nothing. */
  lemma SignFillValues(up: Mask, down: Mask, i: nat)
    requires |up| == |down| && i < |up|
    ensures FFill(SignColumn(up, down))[i] in {None, Some(1.0), Some(-1.0)}
  {
    if FFill(SignColumn(up, down))[i].Some? {
      LatestHasSource(SignColumn(up, down), i);
    }
  }

  // ---------------------------------------------------------------------
  // The passes over the side column

  lemma RowInPrefix(i: nat, events: seq<Event>, k: nat)
    requires k < |events|
    ensures RowIn(i, events[..k + 1]) <==> RowIn(i, events[..k]) || events[k].row == i
  {
    if RowIn(i, events[..k + 1]) && events[k].row != i {
      var m :| 0 <= m < k + 1 && events[..k + 1][m].row == i;
      assert events[..k][m].row == i;
    }
    if RowIn(i, events[..k]) {
      var m :| 0 <= m < k && events[..k][m].row == i;
      assert events[..k + 1][m].row == i;
    }
    if events[k].row == i {
      assert events[..k + 1][k].row == i;
    }
  }

  /**
   * Builds the unfilled side column: a fresh column of `n` missing rows with
   * +1 written on every up row and -1 on every down row. The two event
   * series must not share a row: the up and down series are concatenated
   * into one column, which needs distinct row labels.
   */
  method PlaceEvents(n: nat, ups: seq<Event>, downs: seq<Event>) returns (a: array<Option<real>>)
    requires forall k :: 0 <= k < |ups| ==> ups[k].row < n
    requires forall k :: 0 <= k < |downs| ==> downs[k].row < n
    requires forall k, l :: 0 <= k < |ups| && 0 <= l < |downs| ==> ups[k].row != downs[l].row
    ensures fresh(a) && a[..] == Marks(n, ups, downs)
  {
    a := new Option<real>[n](_ => None);
    for k := 0 to |ups|
      invariant forall i :: 0 <= i < n ==> a[i] == if RowIn(i, ups[..k]) then Some(1.0) else None
    {
      forall i | 0 <= i < n {
        RowInPrefix(i, ups, k);
      }
      a[ups[k].row] := Some(1.0);
    }
    assert ups[..|ups|] == ups;
    for k := 0 to |downs|
      invariant forall i :: 0 <= i < n ==>
        a[i] == if RowIn(i, ups) then Some(1.0) else if RowIn(i, downs[..k]) then Some(-1.0) else None
    {
      forall i | 0 <= i < n {
        RowInPrefix(i, downs, k);
      }
      assert !RowIn(downs[k].row, ups);
      a[downs[k].row] := Some(-1.0);
    }
    assert downs[..|downs|] == downs;
    assert forall i :: 0 <= i < n ==> a[i] == Marks(n, ups, downs)[i];
  }

  /** Fills the column forward in place, left to right, carrying the last defined value. */
  method FillForward(a: array<Option<real>>)
    modifies a
    ensures a[..] == FFill(old(a[..]))
  {
    ghost var s := a[..];
    var last: Option<real> := None;
    for i := 0 to a.Length
      invariant forall j :: 0 <= j < i ==> a[j] == Latest(s, j)
      invariant forall j :: i <= j < a.Length ==> a[j] == s[j]
      invariant last == if i == 0 then None else Latest(s, i - 1)
    {
      if a[i].Some? {
        last := a[i];
      } else {
        a[i] := last;
      }
    }
    assert forall j :: 0 <= j < a.Length ==> a[..][j] == FFill(s)[j];
  }

  /** Sets the rows of `mask` to 0 in place and leaves the others alone. */
  method Neutralize(a: array<Option<real>>, mask: Mask)
    requires |mask| == a.Length
    modifies a
    ensures a[..] == Override(old(a[..]), mask)
  {
    ghost var s := a[..];
    for i := 0 to a.Length
      invariant forall j :: 0 <= j < i ==> a[j] == if mask[j] then Some(0.0) else s[j]
      invariant forall j :: i <= j < a.Length ==> a[j] == s[j]
    {
      if mask[i] {
        a[i] := Some(0.0);
      }
    }
    assert forall j :: 0 <= j < a.Length ==> a[..][j] == Override(s, mask)[j];
  }
}
