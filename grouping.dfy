/**
 * The filter-and-group loop of JisiluSpider.run: rows without an `iporesult`
 * are skipped, every other row becomes a StockCell that is appended to the
 * flat list `stockCells` and to the list of its month in `monthGroupedStocks`
 * (`computeIfAbsent(month, k -> new ArrayList()).add(cell)`).
 */
module Grouping {
  import opened Wrappers
  import opened StockCells

  /** The rows the loop does not skip, in input order. */
  function Kept(rows: seq<Row>): seq<Row>
  {
    if rows == [] then []
    else
      var last := rows[|rows| - 1];
      Kept(rows[..|rows| - 1]) + (if last.iporesult.Some? then [last] else [])
  }

  /**
   * The flat list the loop leaves behind, or None when a kept row has a date
   * without '-': setDate throws there and the whole run aborts.
   */
  function Ingest(rows: seq<Row>): Option<seq<StockCell>>
  {
    if rows == [] then Some([])
    else
      var prefix := Ingest(rows[..|rows| - 1]);
      var last := rows[|rows| - 1];
      if prefix.None? then None
      else if last.iporesult.None? then prefix
      else match NewStockCell(last)
        case None => None
        case Some(c) => Some(prefix.value + [c])
  }

  /** The months that occur in `cells`. */
  function Months(cells: seq<StockCell>): set<string>
  {
    set c | c in cells :: c.month
  }

  /** The cells of month `m`, in input order. */
  function InMonth(cells: seq<StockCell>, m: string): seq<StockCell>
  {
    if cells == [] then []
    else
      var last := cells[|cells| - 1];
      InMonth(cells[..|cells| - 1], m) + (if last.month == m then [last] else [])
  }

  /** The map the loop builds: each month that occurs, bound to its cells in input order. */
  function ByMonth(cells: seq<StockCell>): map<string, seq<StockCell>>
  {
    map m | m in Months(cells) :: InMonth(cells, m)
  }

  /** `a` is `b` with some elements left out, the rest kept in order. */
  ghost predicate IsSubsequence<T>(a: seq<T>, b: seq<T>)
    decreases |b|
  {
    if a == [] then true
    else if b == [] then false
    else
      (a[|a| - 1] == b[|b| - 1] && IsSubsequence(a[..|a| - 1], b[..|b| - 1]))
      || IsSubsequence(a, b[..|b| - 1])
  }

  /** The sum of the lengths of the lists in `g`. */
  ghost function TotalSize(g: map<string, seq<StockCell>>): nat
    decreases |g|
  {
    if |g| == 0 then 0
    else
      var k := AnyKey(g);
      |g[k]| + TotalSize(g - {k})
  }

  /** Some key of a non-empty map. */
  ghost function AnyKey(g: map<string, seq<StockCell>>): (k: string)
    requires |g| != 0
    ensures k in g
  {
    var k :| k in g; k
  }

  /**
   * The filter-and-group loop. It succeeds exactly when Ingest does, and then
   * the flat list is the ingested cells and the map groups them by month.
   */
  method Partition(rows: seq<Row>) returns (ok: bool, stockCells: seq<StockCell>, monthGroupedStocks: map<string, seq<StockCell>>)
    ensures ok <==> Ingest(rows).Some?
    ensures ok ==> stockCells == Ingest(rows).value && monthGroupedStocks == ByMonth(stockCells)
  {
    stockCells := [];
    monthGroupedStocks := map[];
    var i := 0;
    while i < |rows|
      invariant 0 <= i <= |rows|
      invariant Ingest(rows[..i]) == Some(stockCells)
      invariant monthGroupedStocks == ByMonth(stockCells)
    {
      assert rows[..i + 1][..i] == rows[..i];
      var row := rows[i];
      if row.iporesult.None? {
        i := i + 1;
        continue;
      }
      var cell := NewStockCell(row);
      if cell.None? {
        IngestAbortIsFinal(rows, i + 1);
        ok := false;
        return;
      }
      var c := cell.value;
      var cells := if c.month in monthGroupedStocks then monthGroupedStocks[c.month] else [];
      monthGroupedStocks := monthGroupedStocks[c.month := cells + [c]];
      ByMonthAppend(stockCells, c);
      stockCells := stockCells + [c];
      i := i + 1;
    }
    assert rows[..i] == rows;
    ok := true;
  }

  /** Once a prefix of the rows has aborted the run, the whole input aborts. */
  lemma {:induction false} IngestAbortIsFinal(rows: seq<Row>, k: nat)
    requires k <= |rows|
    requires Ingest(rows[..k]).None?
    ensures Ingest(rows).None?
    decreases |rows|
  {
    if k < |rows| {
      var init := rows[..|rows| - 1];
      assert init[..k] == rows[..k];
      IngestAbortIsFinal(init, k);
    } else {
      assert rows[..k] == rows;
    }
  }

  /** Appending one cell adds it at the end of its own month's list and leaves every other month alone. */
  lemma ByMonthAppend(cells: seq<StockCell>, c: StockCell)
    ensures ByMonth(cells + [c]) ==
      ByMonth(cells)[c.month := (if c.month in ByMonth(cells) then ByMonth(cells)[c.month] else []) + [c]]
  {
    var cells' := cells + [c];
    assert cells'[..|cells'| - 1] == cells;
    assert Months(cells') == Months(cells) + {c.month};
    var g, g' := ByMonth(cells), ByMonth(cells + [c]);
    var r := g[c.month := (if c.month in g then g[c.month] else []) + [c]];
    assert g'.Keys == r.Keys;
    forall m | m in g' ensures g'[m] == r[m] {
      assert InMonth(cells', m) == InMonth(cells, m) + (if c.month == m then [c] else []);
      if m == c.month && c.month !in Months(cells) {
        InMonthOfAbsentMonth(cells, m);
      }
    }
  }

  /** A month that does not occur has an empty list. */
  lemma {:induction false} InMonthOfAbsentMonth(cells: seq<StockCell>, m: string)
    requires m !in Months(cells)
    ensures InMonth(cells, m) == []
  {
    if cells != [] {
      var init := cells[..|cells| - 1];
      assert Months(init) <= Months(cells);
      InMonthOfAbsentMonth(init, m);
    }
  }

  /** Rows without an `iporesult` are dropped; every other row is kept as often as it occurs. */
  lemma {:induction false} KeptCounts(rows: seq<Row>, r: Row)
    ensures multiset(Kept(rows))[r] == if r.iporesult.Some? then multiset(rows)[r] else 0
  {
    if rows != [] {
      var init := rows[..|rows| - 1];
      assert rows == init + [rows[|rows| - 1]];
      KeptCounts(init, r);
    }
  }

  /** The kept rows keep their input order. */
  lemma {:induction false} KeptIsSubsequence(rows: seq<Row>)
    ensures IsSubsequence(Kept(rows), rows)
  {
    if rows != [] {
      var init := rows[..|rows| - 1];
      var last := rows[|rows| - 1];
      assert rows == init + [last];
      KeptIsSubsequence(init);
      SubsequenceExtend(Kept(init), init, last);
      if last.iporesult.Some? {
        assert Kept(rows) == Kept(init) + [last];
      } else {
        assert Kept(rows) == Kept(init);
      }
    }
  }

  /** A subsequence of `b` stays one when an element is appended to `b`, and to both. */
  lemma SubsequenceExtend<T>(a: seq<T>, b: seq<T>, x: T)
    requires IsSubsequence(a, b)
    ensures IsSubsequence(a, b + [x]) && IsSubsequence(a + [x], b + [x])
  {
    var b' := b + [x];
    assert b'[..|b'| - 1] == b;
    var a' := a + [x];
    assert a'[..|a'| - 1] == a;
  }

  /**
   * The loop aborts exactly when a kept row has a date without '-'; otherwise
   * it makes one cell per kept row, in order.
   */
  lemma {:induction false} IngestSpec(rows: seq<Row>)
    ensures Ingest(rows).Some? <==> forall i :: 0 <= i < |Kept(rows)| ==> '-' in Kept(rows)[i].listDt2
    ensures Ingest(rows).Some? ==>
      && |Ingest(rows).value| == |Kept(rows)|
      && forall j :: 0 <= j < |Kept(rows)| ==> NewStockCell(Kept(rows)[j]) == Some(Ingest(rows).value[j])
  {
    if rows != [] {
      var init := rows[..|rows| - 1];
      var last := rows[|rows| - 1];
      IngestSpec(init);
      var k := Kept(init);
      assert Kept(rows) == k + (if last.iporesult.Some? then [last] else []);
      if last.iporesult.Some? {
        var kept := Kept(rows);
        assert kept[|k|] == last;
        assert forall i :: 0 <= i < |k| ==> kept[i] == k[i];
        if Ingest(init).None? {
          var i :| 0 <= i < |k| && '-' !in k[i].listDt2;
          assert '-' !in kept[i].listDt2;
        } else if '-' !in last.listDt2 {
          assert '-' !in kept[|k|].listDt2;
        } else {
          assert Ingest(rows) == Some(Ingest(init).value + [NewStockCell(last).value]);
        }
      } else {
        assert Kept(rows) == k;
        assert Ingest(rows) == Ingest(init);
      }
    }
  }

  /** A cell is in its own month's list exactly as often as in the flat list, and in no other month's list. */
  lemma {:induction false} InMonthCounts(cells: seq<StockCell>, m: string, c: StockCell)
    ensures multiset(InMonth(cells, m))[c] == if c.month == m then multiset(cells)[c] else 0
  {
    if cells != [] {
      var init := cells[..|cells| - 1];
      assert cells == init + [cells[|cells| - 1]];
      InMonthCounts(init, m, c);
    }
  }

  /** A month's list keeps the input order. */
  lemma {:induction false} InMonthIsSubsequence(cells: seq<StockCell>, m: string)
    ensures IsSubsequence(InMonth(cells, m), cells)
  {
    if cells != [] {
      var init := cells[..|cells| - 1];
      var last := cells[|cells| - 1];
      assert cells == init + [last];
      InMonthIsSubsequence(init, m);
      SubsequenceExtend(InMonth(init, m), init, last);
      if last.month == m {
        assert InMonth(cells, m) == InMonth(init, m) + [last];
      } else {
        assert InMonth(cells, m) == InMonth(init, m);
      }
    }
  }

  /** Every month in the map has a non-empty list. */
  lemma {:induction false} ByMonthListsNonEmpty(cells: seq<StockCell>, m: string)
    requires m in ByMonth(cells)
    ensures |ByMonth(cells)[m]| > 0
  {
    var c :| c in cells && c.month == m;
    InMonthCounts(cells, m, c);
  }

  /** The sum of the list lengths can be taken out one key at a time, whichever key. */
  lemma {:induction false} TotalSizeRemove(g: map<string, seq<StockCell>>, k: string)
    requires k in g
    ensures TotalSize(g) == |g[k]| + TotalSize(g - {k})
    decreases |g|
  {
    NonEmptyMap(g, k);
    var j := AnyKey(g);
    if j != k {
      var withoutJ, withoutK := g - {j}, g - {k};
      RemoveBoth(g, j, k);
      TotalSizeRemove(withoutJ, k);
      TotalSizeRemove(withoutK, j);
    }
  }

  /** A map with a key in it is not empty. */
  lemma NonEmptyMap(g: map<string, seq<StockCell>>, k: string)
    requires k in g
    ensures |g| != 0
  {
    assert k in g.Keys;
  }

  /** Removing two distinct keys in either order gives the same, smaller maps. */
  lemma RemoveBoth(g: map<string, seq<StockCell>>, j: string, k: string)
    requires j in g && k in g && j != k
    ensures |g - {j}| < |g| && |g - {k}| < |g|
    ensures k in g - {j} && (g - {j})[k] == g[k]
    ensures j in g - {k} && (g - {k})[j] == g[j]
    ensures (g - {j}) - {k} == (g - {k}) - {j}
  {
    assert (g - {j}).Keys == g.Keys - {j};
    assert (g - {k}).Keys == g.Keys - {k};
  }

  /** Replacing one key's list changes the total by the difference in length. */
  lemma TotalSizeUpdate(g: map<string, seq<StockCell>>, k: string, v: seq<StockCell>)
    ensures TotalSize(g[k := v]) + (if k in g then |g[k]| else 0) == TotalSize(g) + |v|
  {
    var g' := g[k := v];
    TotalSizeRemove(g', k);
    assert g' - {k} == g - {k};
    if k in g {
      TotalSizeRemove(g, k);
    } else {
      assert g - {k} == g;
    }
  }

  /** No cell is lost or duplicated: the month lists' lengths add up to the flat list's length. */
  lemma {:induction false} ByMonthTotalSize(cells: seq<StockCell>)
    ensures TotalSize(ByMonth(cells)) == |cells|
  {
    if cells != [] {
      var init := cells[..|cells| - 1];
      var c := cells[|cells| - 1];
      assert cells == init + [c];
      ByMonthTotalSize(init);
      ByMonthAppend(init, c);
      var g := ByMonth(init);
      TotalSizeUpdate(g, c.month, (if c.month in g then g[c.month] else []) + [c]);
    } else {
      assert ByMonth(cells) == map[];
    }
  }
}
