/**
 * The column layout shared by Statistical.header() and Statistical.format():
 * seven scalar columns, then a name column and a value column for each of the
 * eight extremum slots. How String.format renders a double ("%.2f") is not
 * modelled; only which conversion each column has, and in which order.
 */
module Layout {
  import opened Numbers
  import opened JavaStrings

  /** A conversion of the format pattern: "%.2f", "%d" or "%s". */
  datatype Conversion = FixedTwo | Decimal | Str

  /** An element of the `objects` array that format() hands to String.format. */
  datatype Arg = Real(x: Num) | Whole(n: int) | Text(s: string)

  predicate Fits(a: Arg, c: Conversion)
  {
    match c
    case FixedTwo => a.Real?
    case Decimal => a.Whole?
    case Str => a.Text?
  }

  /** One argument per conversion, each of the kind its conversion prints. */
  predicate Conforms(args: seq<Arg>, format: seq<Conversion>)
  {
    |args| == |format| && forall i :: 0 <= i < |args| ==> Fits(args[i], format[i])
  }

  /** The number of extremum slots: the length of `keyValues`. */
  const SLOTS: nat := 8

  /** The number of scalar columns before the slots. */
  const SCALARS: nat := 7

  /** "%.2f, %d, %d, %d, %.2f, %.2f, %.2f": the conversions of the scalar columns. */
  const SCALAR_CONVERSIONS: seq<Conversion> := [FixedTwo, Decimal, Decimal, Decimal, FixedTwo, FixedTwo, FixedTwo]

  /** The conversions of the complete pattern: the scalar ones, then "%s, %.2f" for every slot. */
  function FormatConversions(): seq<Conversion>
  {
    SCALAR_CONVERSIONS + SlotConversions(SLOTS)
  }

  /** "%s, %.2f" repeated n times: slot k's name conversion at 2k and its value conversion at 2k + 1. */
  function SlotConversions(n: nat): (r: seq<Conversion>)
    ensures |r| == 2 * n
    ensures forall k :: 0 <= k < n ==> r[2 * k] == Str && r[2 * k + 1] == FixedTwo
  {
    if n == 0 then [] else SlotConversions(n - 1) + [Str, FixedTwo]
  }

  /** The static initializer of Statistical that appends ", %s, %.2f" to the pattern once per slot. */
  method InitFormat() returns (format: seq<Conversion>)
    ensures format == FormatConversions()
    ensures |format| == SCALARS + 2 * SLOTS
  {
    format := SCALAR_CONVERSIONS;
    for i := 0 to SLOTS
      invariant format == SCALAR_CONVERSIONS + SlotConversions(i)
    {
      format := format + [Str, FixedTwo];
    }
  }

  /** Arguments that fit two patterns one after the other fit the two patterns joined. */
  lemma ConformsConcat(a: seq<Arg>, b: seq<Arg>, f: seq<Conversion>, g: seq<Conversion>)
    requires Conforms(a, f) && Conforms(b, g)
    ensures Conforms(a + b, f + g)
  {
    forall i | 0 <= i < |a + b| ensures Fits((a + b)[i], (f + g)[i]) {
      if i < |a| {
        assert (a + b)[i] == a[i] && (f + g)[i] == f[i];
      } else {
        assert (a + b)[i] == b[i - |a|] && (f + g)[i] == g[i - |f|];
      }
    }
  }

  /** The slot names, in slot order; each is also the name of a Statistical field. */
  const SLOT_NAMES: seq<string> := [
    "minGrayIncRt", "minFirstIncRt", "maxGrayIncRt", "maxFirstIncRt",
    "minGrayIncMoney", "minFirstIncMoney", "maxGrayIncMoney", "maxFirstIncMoney"]

  /** The names of the seven scalar columns, in order. */
  const SCALAR_COLUMNS: seq<string> := [
    "avgLockyDrawRt", "numIncrStocks", "numDescStocks", "numEqualStocks", "desc/total",
    "grayTotal", "firtTotal"]

  /** Two columns per slot, "<slot>.name" then "<slot>.value", in slot order. */
  function SlotColumnNames(names: seq<string>): (r: seq<string>)
    ensures |r| == 2 * |names|
    ensures forall k :: 0 <= k < |names| ==> r[2 * k] == names[k] + ".name" && r[2 * k + 1] == names[k] + ".value"
  {
    if names == [] then []
    else
      var name := names[|names| - 1];
      SlotColumnNames(names[..|names| - 1]) + [name + ".name", name + ".value"]
  }

  /** The column names header() appends, in order. */
  function HeaderColumns(): seq<string>
  {
    SCALAR_COLUMNS + SlotColumnNames(SLOT_NAMES)
  }

  /**
   * Statistical.header(): the column names separated by commas, with no
   * trailing comma. Read back at its commas, the line gives exactly its 23
   * column names.
   */
  function Header(): (r: string)
    ensures Split(r, ',') == HeaderColumns()
    ensures |Split(r, ',')| == SCALARS + 2 * SLOTS == 23
  {
    HeaderColumnsLackComma();
    SplitJoin(HeaderColumns(), ',');
    Join(HeaderColumns(), ',')
  }

  /**
   * header() and the format pattern agree: both have 7 + 2 * 8 = 23 columns,
   * the scalar columns line up with the scalar conversions, and slot k has
   * its name column at 7 + 2k (a %s) and its value column right after it
   * (a %.2f).
   */
  lemma HeaderMatchesFormat()
    ensures |HeaderColumns()| == |FormatConversions()| == SCALARS + 2 * SLOTS == 23
    ensures forall i :: 0 <= i < SCALARS ==> HeaderColumns()[i] == SCALAR_COLUMNS[i]
    ensures forall k :: 0 <= k < SLOTS ==>
      && HeaderColumns()[SCALARS + 2 * k] == SLOT_NAMES[k] + ".name"
      && HeaderColumns()[SCALARS + 2 * k + 1] == SLOT_NAMES[k] + ".value"
      && FormatConversions()[SCALARS + 2 * k] == Str
      && FormatConversions()[SCALARS + 2 * k + 1] == FixedTwo
  {
    var cols := SlotColumnNames(SLOT_NAMES);
    var convs := SlotConversions(SLOTS);
    forall k | 0 <= k < SLOTS
      ensures HeaderColumns()[SCALARS + 2 * k] == SLOT_NAMES[k] + ".name"
      ensures HeaderColumns()[SCALARS + 2 * k + 1] == SLOT_NAMES[k] + ".value"
      ensures FormatConversions()[SCALARS + 2 * k] == Str
      ensures FormatConversions()[SCALARS + 2 * k + 1] == FixedTwo
    {
      assert HeaderColumns()[SCALARS + 2 * k] == cols[2 * k];
      assert HeaderColumns()[SCALARS + 2 * k + 1] == cols[2 * k + 1];
      assert FormatConversions()[SCALARS + 2 * k] == convs[2 * k];
      assert FormatConversions()[SCALARS + 2 * k + 1] == convs[2 * k + 1];
    }
  }

  /** No scalar column name contains a comma. */
  lemma ScalarColumnsLackComma()
    ensures forall i :: 0 <= i < |SCALAR_COLUMNS| ==> ',' !in SCALAR_COLUMNS[i]
  {
  }

  /** No slot name contains a comma. */
  lemma SlotNamesLackComma()
    ensures forall k :: 0 <= k < |SLOT_NAMES| ==> ',' !in SLOT_NAMES[k]
  {
  }

  /** Slot columns built from comma-free names are comma-free. */
  lemma {:induction false} SlotColumnsLackComma(names: seq<string>)
    requires forall k :: 0 <= k < |names| ==> ',' !in names[k]
    ensures forall i :: 0 <= i < |SlotColumnNames(names)| ==> ',' !in SlotColumnNames(names)[i]
  {
    if names != [] {
      var name := names[|names| - 1];
      SlotColumnsLackComma(names[..|names| - 1]);
      assert ',' !in name + ".name" && ',' !in name + ".value";
    }
  }

  /** No header column name contains a comma. */
  lemma HeaderColumnsLackComma()
    ensures forall i :: 0 <= i < |HeaderColumns()| ==> ',' !in HeaderColumns()[i]
  {
    var h := HeaderColumns();
    ScalarColumnsLackComma();
    SlotNamesLackComma();
    SlotColumnsLackComma(SLOT_NAMES);
    forall i | 0 <= i < |h| ensures ',' !in h[i] {
      if i < SCALARS {
        assert h[i] == SCALAR_COLUMNS[i];
      } else {
        assert h[i] == SlotColumnNames(SLOT_NAMES)[i - SCALARS];
      }
    }
  }
}
