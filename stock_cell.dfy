/**
 * JisiluSpider.StockCell: one IPO subscription record, and the raw row of the
 * feed it is built from. A cell is filled in once, right after the row is read,
 * and never changed afterwards, so it is a value here.
 */
module StockCells {
  import opened Wrappers
  import opened JavaStrings

  /**
   * One element of the feed's `rows` array after field extraction: the `id`,
   * and from its `cell` object the fields `run` reads. `iporesult` is only
   * tested for null; the numbers are doubles, taken as reals.
   */
  datatype Row = Row(
    id: string,
    stockNm: string,
    listDt2: string,
    iporesult: Option<string>,
    luckyDrawRt: real,
    singleDrawMoney: real,
    grayIncrRt: real,
    firstIncrRt: real)

  datatype StockCell = StockCell(
    id: string,
    name: string,
    date: string,
    year: string,
    month: string,
    luckyDrawRt: real,
    singleDrawMoney: real,
    grayIncrRt: real,
    firstIncrRt: real)

  /** The two keys `setDate` derives from a listing date. */
  datatype DateKeys = DateKeys(year: string, month: string)

  /** `year` is the part of `date` before its first '-'. */
  predicate IsYearKey(date: string, year: string)
  {
    |year| < |date| && year == date[..|year|] && date[|year|] == '-' && '-' !in year
  }

  /** `month` is the part of `date` before its last '-'. */
  predicate IsMonthKey(date: string, month: string)
  {
    |month| < |date| && month == date[..|month|] && date[|month|] == '-' && '-' !in date[|month| + 1..]
  }

  /**
   * StockCell.setDate: the year and month keys of a listing date. A date with
   * no '-' makes `substring(0, -1)` throw, so no key is produced (None).
   */
  function SetDate(date: string): (r: Option<DateKeys>)
    ensures r.None? <==> '-' !in date
    ensures r.Some? ==> IsYearKey(date, r.value.year) && IsMonthKey(date, r.value.month)
  {
    var first := IndexOf(date, '-');
    var last := LastIndexOf(date, '-');
    if first == -1 then None
    else Some(DateKeys(date[..first], date[..last]))
  }

  /** The two key predicates pin their key down: there is one year key and one month key per date. */
  lemma KeysAreUnique(date: string, y1: string, y2: string, m1: string, m2: string)
    requires IsYearKey(date, y1) && IsYearKey(date, y2)
    requires IsMonthKey(date, m1) && IsMonthKey(date, m2)
    ensures y1 == y2 && m1 == m2
  {
  }

  /** The listing date used as an example in `run`: 2021-02-19 has year 2021 and month 2021-02. */
  lemma SetDateExample(d: string)
    requires d == "2021-02-19"
    ensures SetDate(d) == Some(DateKeys("2021", "2021-02"))
  {
    assert d[4] == '-';
    var r := SetDate(d);
    assert IsYearKey(d, "2021");
    assert d[..7] == "2021-02" && d[8..] == "19";
    assert IsMonthKey(d, "2021-02");
    KeysAreUnique(d, r.value.year, "2021", r.value.month, "2021-02");
  }

  /**
   * The setter sequence of `run` on a row that has an `iporesult`: every field
   * is copied, and the keys come from setDate, whose failure aborts the row.
   */
  function NewStockCell(row: Row): (r: Option<StockCell>)
    ensures r.None? <==> '-' !in row.listDt2
    ensures r.Some? ==>
      && r.value.id == row.id && r.value.name == row.stockNm && r.value.date == row.listDt2
      && IsYearKey(row.listDt2, r.value.year) && IsMonthKey(row.listDt2, r.value.month)
      && r.value.luckyDrawRt == row.luckyDrawRt && r.value.singleDrawMoney == row.singleDrawMoney
      && r.value.grayIncrRt == row.grayIncrRt && r.value.firstIncrRt == row.firstIncrRt
  {
    match SetDate(row.listDt2)
    case None => None
    case Some(keys) =>
      Some(StockCell(row.id, row.stockNm, row.listDt2, keys.year, keys.month,
                     row.luckyDrawRt, row.singleDrawMoney, row.grayIncrRt, row.firstIncrRt))
  }
}
