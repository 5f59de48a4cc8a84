/**
 * JisiluSpider.min and JisiluSpider.max: one pass over the cells with a running
 * value and a running name. Both comparisons are strict, so a tie keeps the
 * earlier cell; `min` starts from Double.MAX_VALUE and `max` from
 * Double.MIN_VALUE, the smallest positive double.
 */
module Extremes {
  import opened Numbers
  import opened StockCells

  /** JisiluSpider.KeyValue: the name of the cell that attained an extremum, and the value. */
  datatype KeyValue = KeyValue(name: string, value: real)

  /** The running (name, min) after the loop of `min` has seen `cells`. */
  function MinOf(cells: seq<StockCell>, fn: StockCell -> real): KeyValue
  {
    if cells == [] then KeyValue("", MAX_VALUE)
    else
      var acc := MinOf(cells[..|cells| - 1], fn);
      var last := cells[|cells| - 1];
      if acc.value > fn(last) then KeyValue(last.name, fn(last)) else acc
  }

  /** The running (name, max) after the loop of `max` has seen `cells`. */
  function MaxOf(cells: seq<StockCell>, fn: StockCell -> real): KeyValue
  {
    if cells == [] then KeyValue("", MIN_VALUE)
    else
      var acc := MaxOf(cells[..|cells| - 1], fn);
      var last := cells[|cells| - 1];
      if acc.value < fn(last) then KeyValue(last.name, fn(last)) else acc
  }

  /** Cell `i` has the least value, and every cell before it a strictly greater one. */
  ghost predicate IsFirstMin(cells: seq<StockCell>, fn: StockCell -> real, i: int)
  {
    && 0 <= i < |cells|
    && (forall j :: 0 <= j < |cells| ==> fn(cells[i]) <= fn(cells[j]))
    && (forall j :: 0 <= j < i ==> fn(cells[i]) < fn(cells[j]))
  }

  /** Cell `i` has the greatest value, and every cell before it a strictly smaller one. */
  ghost predicate IsFirstMax(cells: seq<StockCell>, fn: StockCell -> real, i: int)
  {
    && 0 <= i < |cells|
    && (forall j :: 0 <= j < |cells| ==> fn(cells[j]) <= fn(cells[i]))
    && (forall j :: 0 <= j < i ==> fn(cells[j]) < fn(cells[i]))
  }

  /** JisiluSpider.min. */
  method Min(stockCells: seq<StockCell>, fn: StockCell -> real) returns (kv: KeyValue)
    ensures kv == MinOf(stockCells, fn)
  {
    var name := "";
    var min := MAX_VALUE;
    for i := 0 to |stockCells|
      invariant KeyValue(name, min) == MinOf(stockCells[..i], fn)
    {
      assert stockCells[..i + 1][..i] == stockCells[..i];
      var value := fn(stockCells[i]);
      if min > value {
        min := value;
        name := stockCells[i].name;
      }
    }
    assert stockCells[..|stockCells|] == stockCells;
    kv := KeyValue(name, min);
  }

  /** JisiluSpider.max. */
  method Max(stockCells: seq<StockCell>, fn: StockCell -> real) returns (kv: KeyValue)
    ensures kv == MaxOf(stockCells, fn)
  {
    var name := "";
    var max := MIN_VALUE;
    for i := 0 to |stockCells|
      invariant KeyValue(name, max) == MaxOf(stockCells[..i], fn)
    {
      assert stockCells[..i + 1][..i] == stockCells[..i];
      var value := fn(stockCells[i]);
      if max < value {
        max := value;
        name := stockCells[i].name;
      }
    }
    assert stockCells[..|stockCells|] == stockCells;
    kv := KeyValue(name, max);
  }

  /** The minimum is at most every value and at most the sentinel. */
  lemma {:induction false} MinOfIsLowerBound(cells: seq<StockCell>, fn: StockCell -> real)
    ensures MinOf(cells, fn).value <= MAX_VALUE
    ensures forall j :: 0 <= j < |cells| ==> MinOf(cells, fn).value <= fn(cells[j])
  {
    if cells != [] {
      MinOfIsLowerBound(cells[..|cells| - 1], fn);
    }
  }

  /** When some value is below the sentinel, `min` names the first cell that attains the minimum. */
  lemma {:induction false} MinOfIsFirstMinimum(cells: seq<StockCell>, fn: StockCell -> real)
    requires exists j :: 0 <= j < |cells| && fn(cells[j]) < MAX_VALUE
    ensures exists i :: IsFirstMin(cells, fn, i) && MinOf(cells, fn) == KeyValue(cells[i].name, fn(cells[i]))
  {
    var init := cells[..|cells| - 1];
    var last := cells[|cells| - 1];
    assert cells == init + [last];
    var acc := MinOf(init, fn);
    MinOfIsLowerBound(init, fn);
    if exists j :: 0 <= j < |init| && fn(init[j]) < MAX_VALUE {
      MinOfIsFirstMinimum(init, fn);
      var i :| IsFirstMin(init, fn, i) && acc == KeyValue(init[i].name, fn(init[i]));
      if acc.value > fn(last) {
        LastIsFirstMin(init, last, fn);
        assert MinOf(cells, fn) == KeyValue(cells[|init|].name, fn(cells[|init|]));
      } else {
        KeepsFirstMin(init, last, fn, i);
        assert MinOf(cells, fn) == KeyValue(cells[i].name, fn(cells[i]));
      }
    } else {
      MinOfAtSentinel(init, fn);
      LastIsFirstMin(init, last, fn);
      assert MinOf(cells, fn) == KeyValue(cells[|init|].name, fn(cells[|init|]));
    }
  }

  /** A new last cell below every earlier one is the first minimum. */
  lemma LastIsFirstMin(init: seq<StockCell>, last: StockCell, fn: StockCell -> real)
    requires forall j :: 0 <= j < |init| ==> fn(last) < fn(init[j])
    ensures IsFirstMin(init + [last], fn, |init|)
  {
    var cells := init + [last];
    assert forall j :: 0 <= j < |init| ==> cells[j] == init[j];
  }

  /** A new last cell no smaller than the first minimum leaves it the first minimum. */
  lemma KeepsFirstMin(init: seq<StockCell>, last: StockCell, fn: StockCell -> real, i: int)
    requires IsFirstMin(init, fn, i) && fn(init[i]) <= fn(last)
    ensures IsFirstMin(init + [last], fn, i)
  {
    var cells := init + [last];
    assert forall j :: 0 <= j < |init| ==> cells[j] == init[j];
  }

  /** When no value is below Double.MAX_VALUE, `min` returns ("", Double.MAX_VALUE). */
  lemma {:induction false} MinOfAtSentinel(cells: seq<StockCell>, fn: StockCell -> real)
    requires forall j :: 0 <= j < |cells| ==> MAX_VALUE <= fn(cells[j])
    ensures MinOf(cells, fn) == KeyValue("", MAX_VALUE)
  {
    if cells != [] {
      MinOfAtSentinel(cells[..|cells| - 1], fn);
    }
  }

  /** The maximum is at least every value and at least the sentinel. */
  lemma {:induction false} MaxOfIsUpperBound(cells: seq<StockCell>, fn: StockCell -> real)
    ensures MIN_VALUE <= MaxOf(cells, fn).value
    ensures forall j :: 0 <= j < |cells| ==> fn(cells[j]) <= MaxOf(cells, fn).value
  {
    if cells != [] {
      MaxOfIsUpperBound(cells[..|cells| - 1], fn);
    }
  }

  /** When some value exceeds the sentinel, `max` names the first cell that attains the maximum. */
  lemma {:induction false} MaxOfIsFirstMaximum(cells: seq<StockCell>, fn: StockCell -> real)
    requires exists j :: 0 <= j < |cells| && MIN_VALUE < fn(cells[j])
    ensures exists i :: IsFirstMax(cells, fn, i) && MaxOf(cells, fn) == KeyValue(cells[i].name, fn(cells[i]))
  {
    var init := cells[..|cells| - 1];
    var last := cells[|cells| - 1];
    assert cells == init + [last];
    var acc := MaxOf(init, fn);
    MaxOfIsUpperBound(init, fn);
    if exists j :: 0 <= j < |init| && MIN_VALUE < fn(init[j]) {
      MaxOfIsFirstMaximum(init, fn);
      var i :| IsFirstMax(init, fn, i) && acc == KeyValue(init[i].name, fn(init[i]));
      if acc.value < fn(last) {
        LastIsFirstMax(init, last, fn);
        assert MaxOf(cells, fn) == KeyValue(cells[|init|].name, fn(cells[|init|]));
      } else {
        KeepsFirstMax(init, last, fn, i);
        assert MaxOf(cells, fn) == KeyValue(cells[i].name, fn(cells[i]));
      }
    } else {
      MaxOfAtSentinel(init, fn);
      LastIsFirstMax(init, last, fn);
      assert MaxOf(cells, fn) == KeyValue(cells[|init|].name, fn(cells[|init|]));
    }
  }

  /** A new last cell above every earlier one is the first maximum. */
  lemma LastIsFirstMax(init: seq<StockCell>, last: StockCell, fn: StockCell -> real)
    requires forall j :: 0 <= j < |init| ==> fn(init[j]) < fn(last)
    ensures IsFirstMax(init + [last], fn, |init|)
  {
    var cells := init + [last];
    assert forall j :: 0 <= j < |init| ==> cells[j] == init[j];
  }

  /** A new last cell no greater than the first maximum leaves it the first maximum. */
  lemma KeepsFirstMax(init: seq<StockCell>, last: StockCell, fn: StockCell -> real, i: int)
    requires IsFirstMax(init, fn, i) && fn(last) <= fn(init[i])
    ensures IsFirstMax(init + [last], fn, i)
  {
    var cells := init + [last];
    assert forall j :: 0 <= j < |init| ==> cells[j] == init[j];
  }

  /**
   * When no value exceeds Double.MIN_VALUE (for instance when all are negative
   * or zero), `max` returns ("", Double.MIN_VALUE): a value no cell has.
   */
  lemma {:induction false} MaxOfAtSentinel(cells: seq<StockCell>, fn: StockCell -> real)
    requires forall j :: 0 <= j < |cells| ==> fn(cells[j]) <= MIN_VALUE
    ensures MaxOf(cells, fn) == KeyValue("", MIN_VALUE)
  {
    if cells != [] {
      MaxOfAtSentinel(cells[..|cells| - 1], fn);
    }
  }

  /** On a non-empty list of negative values the reported maximum is attained by no cell and names none. */
  lemma MaxOfMissesNegatives(cells: seq<StockCell>, fn: StockCell -> real)
    requires forall j :: 0 <= j < |cells| ==> fn(cells[j]) < 0.0
    ensures MaxOf(cells, fn).name == ""
    ensures forall j :: 0 <= j < |cells| ==> MaxOf(cells, fn).value != fn(cells[j])
  {
    MaxOfAtSentinel(cells, fn);
  }

  /** A single cell is its own minimum and maximum, except where a sentinel already beats it. */
  lemma SingleCell(c: StockCell, fn: StockCell -> real)
    ensures MinOf([c], fn) == if fn(c) < MAX_VALUE then KeyValue(c.name, fn(c)) else KeyValue("", MAX_VALUE)
    ensures MaxOf([c], fn) == if MIN_VALUE < fn(c) then KeyValue(c.name, fn(c)) else KeyValue("", MIN_VALUE)
  {
    assert [c][..0] == [];
  }
}
