/**
 * JisiluSpider.Statistical and JisiluSpider.runStatistical: the summary of a
 * list of cells. The object is filled in by setters; each extremum setter
 * writes its KeyValue both to a named field and to a fixed slot of the
 * `keyValues` array, and Valid() says the two views agree.
 */
module Statistics {
  import opened Wrappers
  import opened Numbers
  import opened StockCells
  import opened Extremes
  import opened Layout

  function LuckyDrawRt(c: StockCell): real { c.luckyDrawRt }
  function SingleDrawMoney(c: StockCell): real { c.singleDrawMoney }
  function GrayIncRt(c: StockCell): real { c.grayIncrRt }
  function FirstIncRt(c: StockCell): real { c.firstIncrRt }

  /** The money a gray-market return makes on one draw (the rate is a percentage). */
  function GrayIncMoney(c: StockCell): real { c.grayIncrRt * c.singleDrawMoney * 0.01 }

  /** The money a first-day return makes on one draw. */
  function FirstIncMoney(c: StockCell): real { c.firstIncrRt * c.singleDrawMoney * 0.01 }

  /** The terms of the unscaled weighted totals. */
  function GrayWeight(c: StockCell): real { c.grayIncrRt * c.singleDrawMoney }
  function FirstWeight(c: StockCell): real { c.firstIncrRt * c.singleDrawMoney }

  predicate Rises(c: StockCell) { c.firstIncrRt > 0.0 }
  predicate Falls(c: StockCell) { c.firstIncrRt < 0.0 }
  predicate Unmoved(c: StockCell) { c.firstIncrRt == 0.0 }

  /** Math.abs on a double. */
  function Abs(x: real): real { if x < 0.0 then -x else x }

  /** The filter behind numEqualStocks: |firstIncrRt - 0.000001| < 0. */
  predicate CountedAsEqual(c: StockCell) { Abs(c.firstIncrRt - 0.000001) < 0.0 }

  /** `stream().mapToDouble(fn).sum()`, and the running sums of the totals loop. */
  function Sum(cells: seq<StockCell>, fn: StockCell -> real): real
  {
    if cells == [] then 0.0 else Sum(cells[..|cells| - 1], fn) + fn(cells[|cells| - 1])
  }

  /** `stream().filter(p).count()`. */
  function Count(cells: seq<StockCell>, p: StockCell -> bool): (n: nat)
    ensures n <= |cells|
  {
    if cells == [] then 0
    else Count(cells[..|cells| - 1], p) + (if p(cells[|cells| - 1]) then 1 else 0)
  }

  /** The metric of each slot, in slot order. */
  function SlotMetric(k: nat): StockCell -> real
    requires k < SLOTS
  {
    [GrayIncRt, FirstIncRt, GrayIncRt, FirstIncRt, GrayIncMoney, FirstIncMoney, GrayIncMoney, FirstIncMoney][k]
  }

  /** Slots 0, 1, 4 and 5 hold minima; slots 2, 3, 6 and 7 maxima. */
  predicate IsMinSlot(k: nat)
  {
    k % 4 < 2
  }

  /** The extremum slot k holds: the minimum or the maximum of the slot's metric. */
  function SlotValue(cells: seq<StockCell>, k: nat): KeyValue
    requires k < SLOTS
  {
    if IsMinSlot(k) then MinOf(cells, SlotMetric(k)) else MaxOf(cells, SlotMetric(k))
  }

  /** The observable contents of a Statistical: its scalar fields and its keyValues array. */
  datatype Summary = Summary(
    avgLockyDrawRt: Num,
    numIncrStocks: nat,
    numDescStocks: nat,
    numEqualStocks: nat,
    grayTotal: real,
    firtTotal: real,
    avgSingleDrawMoney: Num,
    keyValues: seq<Option<KeyValue>>)

  /**
   * The four sums and the three filter counts runStatistical takes of its
   * cells, gathered in one pass.
   */
  datatype Tally = Tally(
    luckyDrawRt: real,
    grayWeight: real,
    firstWeight: real,
    singleDrawMoney: real,
    rises: nat,
    falls: nat,
    countedAsEqual: nat)

  /** The tally of `cells`, one cell at a time from the front. */
  function TallyOf(cells: seq<StockCell>): Tally
  {
    if cells == [] then Tally(0.0, 0.0, 0.0, 0.0, 0, 0, 0)
    else
      var t := TallyOf(cells[..|cells| - 1]);
      var c := cells[|cells| - 1];
      Tally(t.luckyDrawRt + LuckyDrawRt(c), t.grayWeight + GrayWeight(c),
            t.firstWeight + FirstWeight(c), t.singleDrawMoney + SingleDrawMoney(c),
            t.rises + (if Rises(c) then 1 else 0), t.falls + (if Falls(c) then 1 else 0),
            t.countedAsEqual + (if CountedAsEqual(c) then 1 else 0))
  }

  /** The summary runStatistical computes for `cells`, with exact real arithmetic. */
  function Summarize(cells: seq<StockCell>): Summary
  {
    var t := TallyOf(cells);
    Summary(
      Quotient(t.luckyDrawRt, |cells|),
      t.rises,
      t.falls,
      t.countedAsEqual,
      t.grayWeight * 0.01,
      t.firstWeight * 0.01,
      Quotient(t.singleDrawMoney, |cells|),
      seq(SLOTS, k requires 0 <= k < SLOTS => Some(SlotValue(cells, k))))
  }

  class Statistical {
    var avgLockyDrawRt: Num
    var numIncrStocks: nat
    var numDescStocks: nat
    var numEqualStocks: nat
    var grayTotal: real
    var firtTotal: real
    var avgSingleDrawMoney: Num
    var minGrayIncRt: Option<KeyValue>
    var minFirstIncRt: Option<KeyValue>
    var maxGrayIncRt: Option<KeyValue>
    var maxFirstIncRt: Option<KeyValue>
    var minGrayIncMoney: Option<KeyValue>
    var minFirstIncMoney: Option<KeyValue>
    var maxGrayIncMoney: Option<KeyValue>
    var maxFirstIncMoney: Option<KeyValue>
    var keyValues: array<Option<KeyValue>>

    /** The eight named extremum fields, in the order of their keyValues slots. */
    ghost function Named(): seq<Option<KeyValue>>
      reads this
    {
      [minGrayIncRt, minFirstIncRt, maxGrayIncRt, maxFirstIncRt,
       minGrayIncMoney, minFirstIncMoney, maxGrayIncMoney, maxFirstIncMoney]
    }

    /** The array and the named fields never diverge. */
    ghost predicate Valid()
      reads this, keyValues
    {
      keyValues.Length == SLOTS && keyValues[..] == Named()
    }

    /** Every slot has been set, so format() can read all of them. */
    ghost predicate Filled()
      reads this
    {
      forall k :: 0 <= k < |Named()| ==> Named()[k].Some?
    }

    ghost function Snapshot(): Summary
      reads this, keyValues
    {
      Summary(avgLockyDrawRt, numIncrStocks, numDescStocks, numEqualStocks,
              grayTotal, firtTotal, avgSingleDrawMoney, keyValues[..])
    }

    /** A new Statistical: Java's default values, every slot null. */
    constructor ()
      ensures Valid() && fresh(keyValues)
      ensures Snapshot() == Summary(Finite(0.0), 0, 0, 0, 0.0, 0.0, Finite(0.0), seq(SLOTS, _ => None))
    {
      avgLockyDrawRt := Finite(0.0);
      numIncrStocks, numDescStocks, numEqualStocks := 0, 0, 0;
      grayTotal, firtTotal := 0.0, 0.0;
      avgSingleDrawMoney := Finite(0.0);
      minGrayIncRt := None;
      minFirstIncRt := None;
      maxGrayIncRt := None;
      maxFirstIncRt := None;
      minGrayIncMoney := None;
      minFirstIncMoney := None;
      maxGrayIncMoney := None;
      maxFirstIncMoney := None;
      keyValues := new Option<KeyValue>[SLOTS](_ => None);
    }

    /** setMinGrayIncRt: slot 0 of keyValues and the field minGrayIncRt, nothing else. */
    method SetMinGrayIncRt(kv: KeyValue)
      requires Valid()
      modifies this`minGrayIncRt, keyValues
      ensures Valid()
      ensures minGrayIncRt == Some(kv)
    {
      keyValues[0] := Some(kv);
      minGrayIncRt := Some(kv);
    }

    /** setMinFirstIncRt: slot 1 of keyValues and the field minFirstIncRt, nothing else. */
    method SetMinFirstIncRt(kv: KeyValue)
      requires Valid()
      modifies this`minFirstIncRt, keyValues
      ensures Valid()
      ensures minFirstIncRt == Some(kv)
    {
      keyValues[1] := Some(kv);
      minFirstIncRt := Some(kv);
    }

    /** setMaxGrayIncRt: slot 2 of keyValues and the field maxGrayIncRt, nothing else. */
    method SetMaxGrayIncRt(kv: KeyValue)
      requires Valid()
      modifies this`maxGrayIncRt, keyValues
      ensures Valid()
      ensures maxGrayIncRt == Some(kv)
    {
      keyValues[2] := Some(kv);
      maxGrayIncRt := Some(kv);
    }

    /** setMaxFirstIncRt: slot 3 of keyValues and the field maxFirstIncRt, nothing else. */
    method SetMaxFirstIncRt(kv: KeyValue)
      requires Valid()
      modifies this`maxFirstIncRt, keyValues
      ensures Valid()
      ensures maxFirstIncRt == Some(kv)
    {
      keyValues[3] := Some(kv);
      maxFirstIncRt := Some(kv);
    }

    /** setMinGrayIncMoney: slot 4 of keyValues and the field minGrayIncMoney, nothing else. */
    method SetMinGrayIncMoney(kv: KeyValue)
      requires Valid()
      modifies this`minGrayIncMoney, keyValues
      ensures Valid()
      ensures minGrayIncMoney == Some(kv)
    {
      keyValues[4] := Some(kv);
      minGrayIncMoney := Some(kv);
    }

    /** setMinFirstIncMoney: slot 5 of keyValues and the field minFirstIncMoney, nothing else. */
    method SetMinFirstIncMoney(kv: KeyValue)
      requires Valid()
      modifies this`minFirstIncMoney, keyValues
      ensures Valid()
      ensures minFirstIncMoney == Some(kv)
    {
      keyValues[5] := Some(kv);
      minFirstIncMoney := Some(kv);
    }

    /** setMaxGrayIncMoney: slot 6 of keyValues and the field maxGrayIncMoney, nothing else. */
    method SetMaxGrayIncMoney(kv: KeyValue)
      requires Valid()
      modifies this`maxGrayIncMoney, keyValues
      ensures Valid()
      ensures maxGrayIncMoney == Some(kv)
    {
      keyValues[6] := Some(kv);
      maxGrayIncMoney := Some(kv);
    }

    /** setMaxFirstIncMoney: slot 7 of keyValues and the field maxFirstIncMoney, nothing else. */
    method SetMaxFirstIncMoney(kv: KeyValue)
      requires Valid()
      modifies this`maxFirstIncMoney, keyValues
      ensures Valid()
      ensures maxFirstIncMoney == Some(kv)
    {
      keyValues[7] := Some(kv);
      maxFirstIncMoney := Some(kv);
    }

    /** The scalar half of format(): the seven scalar columns at the front of `a`. */
    method WriteScalars(a: array<Arg>)
      requires a.Length == SCALARS + 2 * SLOTS
      modifies a
      ensures a[..SCALARS] == ScalarArgs(Snapshot())
      ensures a[SCALARS..] == old(a[SCALARS..])
    {
      a[0] := Real(avgLockyDrawRt);
      a[1] := Whole(numIncrStocks);
      a[2] := Whole(numDescStocks);
      a[3] := Whole(numEqualStocks);
      a[4] := Real(Quotient(numDescStocks as real, numDescStocks + numIncrStocks + numEqualStocks));
      a[5] := Real(Finite(grayTotal));
      a[6] := Real(Finite(firtTotal));
    }

    /**
     * format(): the 23 arguments handed to String.format, read off the
     * fields and the keyValues array. They are the arguments FormatArgs
     * gives for the current state, so they fit the pattern column by column.
     */
    method Format() returns (objects: seq<Arg>)
      requires Valid() && Filled()
      ensures objects == FormatArgs(Snapshot())
    {
      ghost var snap := Snapshot();
      assert forall k :: 0 <= k < |snap.keyValues| ==> snap.keyValues[k].Some? by {
        assert snap.keyValues == Named();
      }
      var a := new Arg[SCALARS + 2 * SLOTS];
      WriteScalars(a);
      WriteSlots(a, SCALARS, keyValues[..]);
      objects := a[..];
      assert objects == a[..SCALARS] + a[SCALARS..];
      assert Snapshot() == snap;
    }
  }

  /** The seven scalar arguments of format(), in column order. */
  function ScalarArgs(s: Summary): (r: seq<Arg>)
    ensures Conforms(r, SCALAR_CONVERSIONS)
  {
    [ Real(s.avgLockyDrawRt), Whole(s.numIncrStocks), Whole(s.numDescStocks), Whole(s.numEqualStocks),
      Real(Quotient(s.numDescStocks as real, s.numDescStocks + s.numIncrStocks + s.numEqualStocks)),
      Real(Finite(s.grayTotal)), Real(Finite(s.firtTotal)) ]
  }

  /** Every one of the eight slots is set. */
  predicate SlotsFilled(s: Summary)
  {
    |s.keyValues| == SLOTS && forall k :: 0 <= k < |s.keyValues| ==> s.keyValues[k].Some?
  }

  /**
   * The arguments format() hands to String.format for a filled summary: the
   * scalar columns, then slot k's name and value at columns 7 + 2k and
   * 8 + 2k, where header() puts that slot's column names. They fit the
   * pattern's conversions one for one.
   */
  function FormatArgs(s: Summary): (r: seq<Arg>)
    requires SlotsFilled(s)
    ensures Conforms(r, FormatConversions())
  {
    ConformsByColumns(ScalarArgs(s), s.keyValues);
    ScalarArgs(s) + SlotArgs(s.keyValues)
  }

  /** The name and value arguments of the given slots, two per slot, in slot order. */
  function SlotArgs(kvs: seq<Option<KeyValue>>): (r: seq<Arg>)
    requires forall k :: 0 <= k < |kvs| ==> kvs[k].Some?
    ensures |r| == 2 * |kvs|
    ensures forall k :: 0 <= k < |kvs| ==>
      r[2 * k] == Text(kvs[k].value.name) && r[2 * k + 1] == Real(Finite(kvs[k].value.value))
  {
    if kvs == [] then []
    else
      var kv := kvs[|kvs| - 1].value;
      SlotArgs(kvs[..|kvs| - 1]) + [Text(kv.name), Real(Finite(kv.value))]
  }

  /** Writes the name and value of each slot, in slot order, from column `from` to the end of `a`. */
  method WriteSlots(a: array<Arg>, from: nat, kvs: seq<Option<KeyValue>>)
    requires forall k :: 0 <= k < |kvs| ==> kvs[k].Some?
    requires from + 2 * |kvs| == a.Length
    modifies a
    ensures a[..from] == old(a[..from])
    ensures a[from..] == SlotArgs(kvs)
  {
    var idx := from;
    for i := 0 to |kvs|
      invariant idx == from + 2 * i
      invariant forall j :: 0 <= j < from ==> a[j] == old(a[j])
      invariant forall k :: 0 <= k < i ==>
        a[from + 2 * k] == Text(kvs[k].value.name) && a[from + 2 * k + 1] == Real(Finite(kvs[k].value.value))
    {
      a[idx] := Text(kvs[i].value.name);
      idx := idx + 1;
      a[idx] := Real(Finite(kvs[i].value.value));
      idx := idx + 1;
    }
    SlotArgsByIndex(a[from..], kvs);
  }

  /** A sequence with each slot's name and value at 2k and 2k + 1 is the slots' arguments. */
  lemma {:induction false} SlotArgsByIndex(t: seq<Arg>, kvs: seq<Option<KeyValue>>)
    requires forall k :: 0 <= k < |kvs| ==> kvs[k].Some?
    requires |t| == 2 * |kvs|
    requires forall k :: 0 <= k < |kvs| ==>
      t[2 * k] == Text(kvs[k].value.name) && t[2 * k + 1] == Real(Finite(kvs[k].value.value))
    ensures t == SlotArgs(kvs)
  {
    if kvs != [] {
      var n := |kvs| - 1;
      SlotArgsByIndex(t[..2 * n], kvs[..n]);
      assert t == t[..2 * n] + [t[2 * n], t[2 * n + 1]];
    }
  }

  /** The arguments of the given slots fit "%s, %.2f" once per slot. */
  lemma {:induction false} SlotArgsConform(kvs: seq<Option<KeyValue>>)
    requires forall k :: 0 <= k < |kvs| ==> kvs[k].Some?
    ensures Conforms(SlotArgs(kvs), SlotConversions(|kvs|))
  {
    if kvs != [] {
      var kv := kvs[|kvs| - 1].value;
      SlotArgsConform(kvs[..|kvs| - 1]);
      ConformsConcat(SlotArgs(kvs[..|kvs| - 1]), [Text(kv.name), Real(Finite(kv.value))],
                     SlotConversions(|kvs| - 1), [Str, FixedTwo]);
    }
  }

  /** Seven scalar arguments of the scalar kinds, followed by the arguments of eight slots, fit the pattern. */
  lemma ConformsByColumns(scalars: seq<Arg>, kvs: seq<Option<KeyValue>>)
    requires |kvs| == SLOTS
    requires Conforms(scalars, SCALAR_CONVERSIONS)
    requires forall k :: 0 <= k < |kvs| ==> kvs[k].Some?
    ensures Conforms(scalars + SlotArgs(kvs), FormatConversions())
  {
    SlotArgsConform(kvs);
    ConformsConcat(scalars, SlotArgs(kvs), SCALAR_CONVERSIONS, SlotConversions(SLOTS));
  }


  /**
   * runStatistical: a new Statistical holding the summary of `stockCells`.
   * Every slot is set, and the object is exactly Summarize(stockCells).
   */
  method RunStatistical(stockCells: seq<StockCell>) returns (statistical: Statistical)
    ensures fresh(statistical) && fresh(statistical.keyValues)
    ensures statistical.Valid() && statistical.Filled()
    ensures statistical.Snapshot() == Summarize(stockCells)
  {
    statistical := new Statistical();
    var avgLockyDrawRt, numIncrStocks, numDescStocks, numEqualStocks := Streams(stockCells);

    SetExtrema(statistical, stockCells);

    var grayTotal, firtTotal, sumSingleDrawMoney := Totals(stockCells);

    StoreScalars(statistical, avgLockyDrawRt, numIncrStocks, numDescStocks, numEqualStocks,
                 Quotient(sumSingleDrawMoney, |stockCells|), grayTotal * 0.01, firtTotal * 0.01);
  }

  /**
   * The stream half of runStatistical: the average lottery rate and the
   * three filter counts, which are the summary's.
   */
  method Streams(stockCells: seq<StockCell>)
    returns (avgLockyDrawRt: Num, numIncrStocks: nat, numDescStocks: nat, numEqualStocks: nat)
    ensures avgLockyDrawRt == Summarize(stockCells).avgLockyDrawRt
    ensures numIncrStocks == Summarize(stockCells).numIncrStocks
    ensures numDescStocks == Summarize(stockCells).numDescStocks
    ensures numEqualStocks == Summarize(stockCells).numEqualStocks
  {
    var totalLuckyDrawRt := Sum(stockCells, LuckyDrawRt);
    avgLockyDrawRt := Quotient(totalLuckyDrawRt, |stockCells|);
    numIncrStocks := Count(stockCells, Rises);
    numDescStocks := Count(stockCells, Falls);
    numEqualStocks := Count(stockCells, CountedAsEqual);
    TallyIsStreams(stockCells);
  }

  /** The seven plain setter calls at the end of runStatistical; the slots are not touched. */
  method StoreScalars(statistical: Statistical, avgLockyDrawRt: Num, numIncrStocks: nat, numDescStocks: nat,
                      numEqualStocks: nat, avgSingleDrawMoney: Num, grayTotal: real, firtTotal: real)
    requires statistical.Valid() && statistical.Filled()
    modifies statistical`avgLockyDrawRt, statistical`numIncrStocks, statistical`numDescStocks,
             statistical`numEqualStocks, statistical`avgSingleDrawMoney, statistical`grayTotal, statistical`firtTotal
    ensures statistical.Valid() && statistical.Filled()
    ensures statistical.Snapshot() == Summary(avgLockyDrawRt, numIncrStocks, numDescStocks, numEqualStocks,
                                              grayTotal, firtTotal, avgSingleDrawMoney, old(statistical.keyValues[..]))
  {
    ghost var named := statistical.Named();
    statistical.avgLockyDrawRt := avgLockyDrawRt;
    statistical.numIncrStocks := numIncrStocks;
    statistical.numDescStocks := numDescStocks;
    statistical.numEqualStocks := numEqualStocks;
    statistical.avgSingleDrawMoney := avgSingleDrawMoney;
    statistical.grayTotal := grayTotal;
    statistical.firtTotal := firtTotal;
    assert statistical.Named() == named;
  }

  /**
   * The extremum half of runStatistical: min or max of each slot's metric,
   * handed to that slot's setter. Afterwards every slot holds what
   * Summarize puts there; the scalar fields are untouched.
   */
  method SetExtrema(statistical: Statistical, stockCells: seq<StockCell>)
    requires statistical.Valid()
    modifies statistical`minGrayIncRt, statistical`minFirstIncRt,
             statistical`maxGrayIncRt, statistical`maxFirstIncRt,
             statistical`minGrayIncMoney, statistical`minFirstIncMoney,
             statistical`maxGrayIncMoney, statistical`maxFirstIncMoney,
             statistical.keyValues
    ensures statistical.Valid() && statistical.Filled()
    ensures statistical.keyValues[..] == Summarize(stockCells).keyValues
  {
    var minGrayIncRt := Min(stockCells, GrayIncRt);
    statistical.SetMinGrayIncRt(minGrayIncRt);
    var minFirstIncRt := Min(stockCells, FirstIncRt);
    statistical.SetMinFirstIncRt(minFirstIncRt);
    var maxGrayIncRt := Max(stockCells, GrayIncRt);
    statistical.SetMaxGrayIncRt(maxGrayIncRt);
    var maxFirstIncRt := Max(stockCells, FirstIncRt);
    statistical.SetMaxFirstIncRt(maxFirstIncRt);
    var minGrayIncMoney := Min(stockCells, GrayIncMoney);
    statistical.SetMinGrayIncMoney(minGrayIncMoney);
    var minFirstIncMoney := Min(stockCells, FirstIncMoney);
    statistical.SetMinFirstIncMoney(minFirstIncMoney);
    var maxGrayIncMoney := Max(stockCells, GrayIncMoney);
    statistical.SetMaxGrayIncMoney(maxGrayIncMoney);
    var maxFirstIncMoney := Max(stockCells, FirstIncMoney);
    statistical.SetMaxFirstIncMoney(maxFirstIncMoney);
    SummarySlots(stockCells);
  }

  /**
   * The totals loop of runStatistical: the unscaled weighted sums of the
   * gray-market and first-day rates, and the sum of the draw amounts.
   */
  method Totals(stockCells: seq<StockCell>) returns (grayTotal: real, firtTotal: real, sumSingleDrawMoney: real)
    ensures grayTotal == TallyOf(stockCells).grayWeight
    ensures firtTotal == TallyOf(stockCells).firstWeight
    ensures sumSingleDrawMoney == TallyOf(stockCells).singleDrawMoney
  {
    grayTotal, firtTotal, sumSingleDrawMoney := 0.0, 0.0, 0.0;
    for i := 0 to |stockCells|
      invariant grayTotal == TallyOf(stockCells[..i]).grayWeight
      invariant firtTotal == TallyOf(stockCells[..i]).firstWeight
      invariant sumSingleDrawMoney == TallyOf(stockCells[..i]).singleDrawMoney
    {
      assert stockCells[..i + 1][..i] == stockCells[..i];
      var cell := stockCells[i];
      var singleDrawMoney := cell.singleDrawMoney;
      sumSingleDrawMoney := sumSingleDrawMoney + singleDrawMoney;
      var grayIncrRt := cell.grayIncrRt;
      var firstIncrRt := cell.firstIncrRt;
      grayTotal := grayTotal + grayIncrRt * singleDrawMoney;
      firtTotal := firtTotal + firstIncrRt * singleDrawMoney;
    }
    assert stockCells[..|stockCells|] == stockCells;
  }

  /** The one-pass tally agrees with the separate streams and the totals loop of runStatistical. */
  lemma {:induction false} TallyIsStreams(cells: seq<StockCell>)
    ensures TallyOf(cells) == Tally(
      Sum(cells, LuckyDrawRt), Sum(cells, GrayWeight), Sum(cells, FirstWeight), Sum(cells, SingleDrawMoney),
      Count(cells, Rises), Count(cells, Falls), Count(cells, CountedAsEqual))
  {
    if cells != [] {
      TallyIsStreams(cells[..|cells| - 1]);
    }
  }

  /** The slots of a summary, written out one by one. */
  lemma SummarySlots(cells: seq<StockCell>)
    ensures Summarize(cells).keyValues ==
      [Some(MinOf(cells, GrayIncRt)), Some(MinOf(cells, FirstIncRt)),
       Some(MaxOf(cells, GrayIncRt)), Some(MaxOf(cells, FirstIncRt)),
       Some(MinOf(cells, GrayIncMoney)), Some(MinOf(cells, FirstIncMoney)),
       Some(MaxOf(cells, GrayIncMoney)), Some(MaxOf(cells, FirstIncMoney))]
  {
  }

  /** Every cell rises, falls or stays at zero, so the three sign counts add up to the list size. */
  lemma {:induction false} SignCounts(cells: seq<StockCell>)
    ensures Count(cells, Rises) + Count(cells, Falls) + Count(cells, Unmoved) == |cells|
  {
    if cells != [] {
      SignCounts(cells[..|cells| - 1]);
    }
  }

  /** The numEqualStocks filter accepts no cell: an absolute value is never negative. */
  lemma {:induction false} NeverCountedAsEqual(cells: seq<StockCell>)
    ensures Count(cells, CountedAsEqual) == 0
  {
    if cells != [] {
      NeverCountedAsEqual(cells[..|cells| - 1]);
      assert !CountedAsEqual(cells[|cells| - 1]);
    }
  }

  /** A count is zero exactly when no cell passes the filter. */
  lemma {:induction false} CountZero(cells: seq<StockCell>, p: StockCell -> bool)
    ensures Count(cells, p) == 0 <==> forall j :: 0 <= j < |cells| ==> !p(cells[j])
  {
    if cells != [] {
      var init := cells[..|cells| - 1];
      CountZero(init, p);
      assert forall j :: 0 <= j < |init| ==> init[j] == cells[j];
    }
  }

  /**
   * The counts of a summary: numEqualStocks is always 0, so the rising and
   * falling counts add up to the list size exactly when no first-day rate is 0.
   */
  lemma SummaryCounts(cells: seq<StockCell>)
    ensures Summarize(cells).numEqualStocks == 0
    ensures Summarize(cells).numIncrStocks + Summarize(cells).numDescStocks <= |cells|
    ensures Summarize(cells).numIncrStocks + Summarize(cells).numDescStocks == |cells|
        <==> forall j :: 0 <= j < |cells| ==> cells[j].firstIncrRt != 0.0
  {
    TallyIsStreams(cells);
    NeverCountedAsEqual(cells);
    SignCounts(cells);
    CountZero(cells, Unmoved);
  }

  /**
   * The desc/total column of format(): NaN exactly when no cell rose or fell,
   * otherwise the share of falling cells among those counted.
   */
  lemma DescShare(cells: seq<StockCell>)
    ensures ScalarArgs(Summarize(cells))[4].x.NaN? <==> forall j :: 0 <= j < |cells| ==> cells[j].firstIncrRt == 0.0
    ensures ScalarArgs(Summarize(cells))[4].x.Finite? ==>
      ScalarArgs(Summarize(cells))[4].x.v * (Summarize(cells).numIncrStocks + Summarize(cells).numDescStocks) as real
        == Summarize(cells).numDescStocks as real
  {
    TallyIsStreams(cells);
    NeverCountedAsEqual(cells);
    ShareOfCounts(Summarize(cells));
    NoneSigned(cells);
  }

  /** With numEqualStocks at 0, desc/total is NaN exactly when nothing rose or fell. */
  lemma ShareOfCounts(s: Summary)
    requires s.numEqualStocks == 0
    ensures ScalarArgs(s)[4].x.NaN? <==> s.numIncrStocks + s.numDescStocks == 0
    ensures ScalarArgs(s)[4].x.Finite? ==>
      ScalarArgs(s)[4].x.v * (s.numIncrStocks + s.numDescStocks) as real == s.numDescStocks as real
  {
    assert s.numDescStocks + s.numIncrStocks + s.numEqualStocks == s.numIncrStocks + s.numDescStocks;
  }

  /** No cell rises and none falls exactly when every first-day rate is 0. */
  lemma NoneSigned(cells: seq<StockCell>)
    ensures Count(cells, Rises) + Count(cells, Falls) == 0 <==> forall j :: 0 <= j < |cells| ==> cells[j].firstIncrRt == 0.0
  {
    CountZero(cells, Rises);
    CountZero(cells, Falls);
    if !forall j :: 0 <= j < |cells| ==> cells[j].firstIncrRt == 0.0 {
      var j :| 0 <= j < |cells| && cells[j].firstIncrRt != 0.0;
      assert Rises(cells[j]) || Falls(cells[j]);
    }
  }

  /**
   * Slot k of a summary is the extremum of the slot's metric: a minimum
   * slot is a lower bound that names the first cell attaining it when some
   * value lies below Double.MAX_VALUE, a maximum slot an upper bound that
   * names the first cell attaining it when some value lies above
   * Double.MIN_VALUE; otherwise the slot holds the sentinel with an empty name.
   */
  lemma SlotIsExtremum(cells: seq<StockCell>, k: nat)
    requires k < SLOTS
    ensures IsMinSlot(k) ==> forall j :: 0 <= j < |cells| ==> SlotValue(cells, k).value <= SlotMetric(k)(cells[j])
    ensures IsMinSlot(k) && (exists j :: 0 <= j < |cells| && SlotMetric(k)(cells[j]) < MAX_VALUE) ==>
      exists i :: IsFirstMin(cells, SlotMetric(k), i) && SlotValue(cells, k) == KeyValue(cells[i].name, SlotMetric(k)(cells[i]))
    ensures IsMinSlot(k) && (forall j :: 0 <= j < |cells| ==> MAX_VALUE <= SlotMetric(k)(cells[j])) ==>
      SlotValue(cells, k) == KeyValue("", MAX_VALUE)
    ensures !IsMinSlot(k) ==> forall j :: 0 <= j < |cells| ==> SlotMetric(k)(cells[j]) <= SlotValue(cells, k).value
    ensures !IsMinSlot(k) && (exists j :: 0 <= j < |cells| && MIN_VALUE < SlotMetric(k)(cells[j])) ==>
      exists i :: IsFirstMax(cells, SlotMetric(k), i) && SlotValue(cells, k) == KeyValue(cells[i].name, SlotMetric(k)(cells[i]))
    ensures !IsMinSlot(k) && (forall j :: 0 <= j < |cells| ==> SlotMetric(k)(cells[j]) <= MIN_VALUE) ==>
      SlotValue(cells, k) == KeyValue("", MIN_VALUE)
  {
    var fn := SlotMetric(k);
    if IsMinSlot(k) {
      MinOfIsLowerBound(cells, fn);
      if exists j :: 0 <= j < |cells| && fn(cells[j]) < MAX_VALUE {
        MinOfIsFirstMinimum(cells, fn);
      } else {
        MinOfAtSentinel(cells, fn);
      }
    } else {
      MaxOfIsUpperBound(cells, fn);
      if exists j :: 0 <= j < |cells| && MIN_VALUE < fn(cells[j]) {
        MaxOfIsFirstMaximum(cells, fn);
      } else {
        MaxOfAtSentinel(cells, fn);
      }
    }
  }

  /**
   * The summary of no cells: both averages are NaN (0.0/0 in Java), the
   * counts and totals are zero and every slot holds its sentinel.
   */
  lemma EmptySummary()
    ensures Summarize([]) == Summary(NaN, 0, 0, 0, 0.0, 0.0, NaN,
      [Some(KeyValue("", MAX_VALUE)), Some(KeyValue("", MAX_VALUE)),
       Some(KeyValue("", MIN_VALUE)), Some(KeyValue("", MIN_VALUE)),
       Some(KeyValue("", MAX_VALUE)), Some(KeyValue("", MAX_VALUE)),
       Some(KeyValue("", MIN_VALUE)), Some(KeyValue("", MIN_VALUE))])
  {
    SummarySlots([]);
  }

  /**
   * Three cells with first-day rates 5, -3 and 0: one rises, one falls and
   * the one at zero is counted by neither sign filter nor by numEqualStocks.
   */
  lemma ThreeCellCounts(a: StockCell, b: StockCell, c: StockCell)
    requires a.firstIncrRt == 5.0 && b.firstIncrRt == -3.0 && c.firstIncrRt == 0.0
    ensures Summarize([a, b, c]).numIncrStocks == 1
    ensures Summarize([a, b, c]).numDescStocks == 1
    ensures Summarize([a, b, c]).numEqualStocks == 0
  {
    var cells := [a, b, c];
    TallyIsStreams(cells);
    assert cells[..2] == [a, b] && cells[..2][..1] == [a] && cells[..2][..1][..0] == [];
    assert Count([a], Rises) == 1 && Count([a, b], Rises) == 1 && Count(cells, Rises) == 1;
    assert Count([a], Falls) == 0 && Count([a, b], Falls) == 1 && Count(cells, Falls) == 1;
    NeverCountedAsEqual(cells);
  }
}
