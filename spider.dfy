/**
 * JisiluSpider.run without its I/O: the rows of the feed are partitioned by
 * month, every month gets a Statistical of its own and the whole list gets
 * one more. The counts per month, the month statistics and the overall
 * statistics are what run then writes to nums.txt, months.txt and total.txt.
 */
module Spider {
  import opened Wrappers
  import opened JavaStrings
  import opened StockCells
  import opened Grouping
  import opened Statistics

  /** `s` is a complete Statistical whose contents are the summary of `cells`. */
  ghost predicate Describes(s: Statistical, cells: seq<StockCell>)
    reads s, s.keyValues
  {
    s.Valid() && s.Filled() && s.Snapshot() == Summarize(cells)
  }

  /** numsStockByMonth: each month bound to the size of its list. */
  function MonthCounts(g: map<string, seq<StockCell>>): (r: map<string, nat>)
    ensures r.Keys == g.Keys
    ensures forall m :: m in r ==> r[m] == |g[m]|
  {
    map m | m in g :: |g[m]|
  }

  /**
   * The loop over monthGroupedStocks.entrySet(): every month's count and its
   * statistics. The entries are taken in an arbitrary order, as a HashMap
   * hands them out.
   */
  method MonthStatistics(monthGroupedStocks: map<string, seq<StockCell>>)
    returns (numsStockByMonth: map<string, nat>, statisticalMap: map<string, Statistical>)
    ensures numsStockByMonth == MonthCounts(monthGroupedStocks)
    ensures statisticalMap.Keys == monthGroupedStocks.Keys
    ensures forall m :: m in statisticalMap ==> Describes(statisticalMap[m], monthGroupedStocks[m])
    ensures forall m :: m in statisticalMap ==> fresh(statisticalMap[m])
  {
    numsStockByMonth := map[];
    statisticalMap := map[];
    var entries := monthGroupedStocks.Keys;
    while entries != {}
      invariant entries <= monthGroupedStocks.Keys
      invariant forall m :: m in numsStockByMonth <==> m in monthGroupedStocks && m !in entries
      invariant forall m :: m in statisticalMap <==> m in monthGroupedStocks && m !in entries
      invariant forall m :: m in numsStockByMonth ==> numsStockByMonth[m] == |monthGroupedStocks[m]|
      invariant forall m :: m in statisticalMap ==> Describes(statisticalMap[m], monthGroupedStocks[m])
      invariant forall m :: m in statisticalMap ==> fresh(statisticalMap[m])
      decreases entries
    {
      var month :| month in entries;
      numsStockByMonth := numsStockByMonth[month := |monthGroupedStocks[month]|];
      var statistical := RunStatistical(monthGroupedStocks[month]);
      statisticalMap := statisticalMap[month := statistical];
      entries := entries - {month};
    }
    assert numsStockByMonth.Keys == MonthCounts(monthGroupedStocks).Keys;
  }

  /**
   * run: fails exactly when the feed has a kept row whose date has no '-';
   * otherwise it yields the count and the statistics of every month of the
   * ingested cells, and the statistics of all of them.
   */
  method Run(rows: seq<Row>)
    returns (ok: bool, numsStockByMonth: map<string, nat>, statisticalMap: map<string, Statistical>, total: Statistical?)
    ensures ok <==> Ingest(rows).Some?
    ensures ok ==> numsStockByMonth == MonthCounts(ByMonth(Ingest(rows).value))
    ensures ok ==> statisticalMap.Keys == Months(Ingest(rows).value)
    ensures ok ==> forall m :: m in statisticalMap ==> Describes(statisticalMap[m], InMonth(Ingest(rows).value, m))
    ensures ok ==> total != null && Describes(total, Ingest(rows).value)
    ensures ok ==> fresh(total)
    ensures ok ==> forall m :: m in statisticalMap ==> fresh(statisticalMap[m])
  {
    var stockCells, monthGroupedStocks;
    ok, stockCells, monthGroupedStocks := Partition(rows);
    if !ok {
      return false, map[], map[], null;
    }
    var s;
    numsStockByMonth, statisticalMap, s := Aggregate(stockCells, monthGroupedStocks);
    total := s;
  }

  /**
   * The part of run after the filter-and-group loop: the month loop, then
   * runStatistical over the flat list.
   */
  method Aggregate(stockCells: seq<StockCell>, monthGroupedStocks: map<string, seq<StockCell>>)
    returns (numsStockByMonth: map<string, nat>, statisticalMap: map<string, Statistical>, total: Statistical)
    requires monthGroupedStocks == ByMonth(stockCells)
    ensures numsStockByMonth == MonthCounts(ByMonth(stockCells))
    ensures statisticalMap.Keys == Months(stockCells)
    ensures forall m :: m in statisticalMap ==> Describes(statisticalMap[m], InMonth(stockCells, m))
    ensures Describes(total, stockCells)
    ensures fresh(total)
    ensures forall m :: m in statisticalMap ==> fresh(statisticalMap[m])
  {
    numsStockByMonth, statisticalMap := MonthStatistics(monthGroupedStocks);
    total := RunStatistical(stockCells);
  }

  /** The month counts of the ingested cells add up to the number of cells. */
  lemma MonthCountsCoverCells(cells: seq<StockCell>)
    ensures TotalSize(ByMonth(cells)) == |cells|
    ensures forall m :: m in MonthCounts(ByMonth(cells)) ==> 0 < MonthCounts(ByMonth(cells))[m] <= |cells|
  {
    ByMonthTotalSize(cells);
    forall m | m in ByMonth(cells) ensures 0 < |ByMonth(cells)[m]| <= |cells| {
      ByMonthListsNonEmpty(cells, m);
      InMonthIsSubsequence(cells, m);
      SubsequenceIsShorter(InMonth(cells, m), cells);
    }
  }

  /** A subsequence is no longer than the sequence it is taken from. */
  lemma {:induction false} SubsequenceIsShorter<T>(a: seq<T>, b: seq<T>)
    requires IsSubsequence(a, b)
    ensures |a| <= |b|
    decreases |b|
  {
    if a != [] {
      if a[|a| - 1] == b[|b| - 1] && IsSubsequence(a[..|a| - 1], b[..|b| - 1]) {
        SubsequenceIsShorter(a[..|a| - 1], b[..|b| - 1]);
      } else {
        SubsequenceIsShorter(a, b[..|b| - 1]);
      }
    }
  }

  /**
   * A feed in which every row lacks an `iporesult` does not abort: it is
   * ingested as no cells, and the summary of no cells has NaN averages
   * (Java's 0.0 / 0) and an undefined desc/total column, not an exception.
   */
  lemma {:induction false} EmptyFeed(rows: seq<Row>)
    requires forall i :: 0 <= i < |rows| ==> rows[i].iporesult.None?
    ensures Ingest(rows) == Some([])
    ensures Summarize(Ingest(rows).value).avgLockyDrawRt.NaN?
    ensures Summarize(Ingest(rows).value).avgSingleDrawMoney.NaN?
    ensures ScalarArgs(Summarize(Ingest(rows).value))[4].x.NaN?
  {
    if rows != [] {
      var init := rows[..|rows| - 1];
      assert forall i :: 0 <= i < |init| ==> init[i] == rows[i];
      EmptyFeed(init);
    }
  }

  /** A listing date of the form YYYY-MM-DD: '-' at positions 4 and 7 and nowhere else. */
  predicate IsIsoDate(d: string)
  {
    && |d| == 10 && d[4] == '-' && d[7] == '-'
    && forall i :: 0 <= i < |d| && i != 4 && i != 7 ==> d[i] != '-'
  }

  /** A listing date of the form YYYY-MM-DD has the year YYYY and the month YYYY-MM. */
  lemma IsoDateKeys(d: string)
    requires IsIsoDate(d)
    ensures SetDate(d) == Some(DateKeys(d[..4], d[..7]))
  {
    var r := SetDate(d);
    assert IsYearKey(d, d[..4]);
    assert IsMonthKey(d, d[..7]);
    KeysAreUnique(d, r.value.year, d[..4], r.value.month, d[..7]);
  }

  /** Three kept rows with well-formed dates become three cells, in order. */
  lemma IngestThree(r0: Row, r1: Row, r2: Row)
    requires r0.iporesult.Some? && r1.iporesult.Some? && r2.iporesult.Some?
    requires NewStockCell(r0).Some? && NewStockCell(r1).Some? && NewStockCell(r2).Some?
    ensures Ingest([r0, r1, r2]) == Some([NewStockCell(r0).value, NewStockCell(r1).value, NewStockCell(r2).value])
  {
    var c0, c1, c2 := NewStockCell(r0).value, NewStockCell(r1).value, NewStockCell(r2).value;
    assert [] + [r0] == [r0] && [r0] + [r1] == [r0, r1] && [r0, r1] + [r2] == [r0, r1, r2];
    IngestKept([], r0);
    IngestKept([r0], r1);
    IngestKept([r0, r1], r2);
    assert [] + [c0] + [c1] + [c2] == [c0, c1, c2];
  }

  /** A kept row appended to an ingested prefix appends its cell. */
  lemma IngestKept(rows: seq<Row>, r: Row)
    requires Ingest(rows).Some? && r.iporesult.Some? && NewStockCell(r).Some?
    ensures Ingest(rows + [r]) == Some(Ingest(rows).value + [NewStockCell(r).value])
  {
    assert (rows + [r])[..|rows|] == rows;
  }

  /** Two cells of one month followed by one of another: two month lists, of two cells and of one. */
  lemma GroupThree(c0: StockCell, c1: StockCell, c2: StockCell)
    requires c0.month == c1.month != c2.month
    ensures Months([c0, c1, c2]) == {c0.month, c2.month}
    ensures ByMonth([c0, c1, c2])[c0.month] == [c0, c1]
    ensures ByMonth([c0, c1, c2])[c2.month] == [c2]
  {
    var cells := [c0, c1, c2];
    assert cells[..2] == [c0, c1] && [c0, c1][..1] == [c0] && [c0][..0] == [];
    assert InMonth([c0], c0.month) == [c0] && InMonth([c0], c2.month) == [];
    assert InMonth([c0, c1], c0.month) == [c0, c1] && InMonth([c0, c1], c2.month) == [];
    assert InMonth(cells, c0.month) == [c0, c1];
    assert InMonth(cells, c2.month) == [c2];
  }

  /**
   * Three kept rows, the first two listed in one month and the third in
   * another, with first-day rates 5, -3 and 0: two months, of two and of one
   * cell; overall one cell rose, one fell, and the one at zero is counted by
   * neither.
   */
  lemma ThreeRowScenario(rows: seq<Row>)
    requires |rows| == 3
    requires rows[0].iporesult.Some? && rows[1].iporesult.Some? && rows[2].iporesult.Some?
    requires IsIsoDate(rows[0].listDt2) && IsIsoDate(rows[1].listDt2) && IsIsoDate(rows[2].listDt2)
    requires rows[0].listDt2[..7] == rows[1].listDt2[..7] != rows[2].listDt2[..7]
    requires rows[0].firstIncrRt == 5.0 && rows[1].firstIncrRt == -3.0 && rows[2].firstIncrRt == 0.0
    ensures Ingest(rows).Some?
    ensures Months(Ingest(rows).value) == {rows[0].listDt2[..7], rows[2].listDt2[..7]}
    ensures |ByMonth(Ingest(rows).value)[rows[0].listDt2[..7]]| == 2
    ensures |ByMonth(Ingest(rows).value)[rows[2].listDt2[..7]]| == 1
    ensures Summarize(Ingest(rows).value).numIncrStocks == 1
    ensures Summarize(Ingest(rows).value).numDescStocks == 1
    ensures Summarize(Ingest(rows).value).numEqualStocks == 0
  {
    IsoDateKeys(rows[0].listDt2);
    IsoDateKeys(rows[1].listDt2);
    IsoDateKeys(rows[2].listDt2);
    assert rows == [rows[0], rows[1], rows[2]];
    IngestThree(rows[0], rows[1], rows[2]);
    var c0, c1, c2 := NewStockCell(rows[0]).value, NewStockCell(rows[1]).value, NewStockCell(rows[2]).value;
    GroupThree(c0, c1, c2);
    ThreeCellCounts(c0, c1, c2);
  }
}
