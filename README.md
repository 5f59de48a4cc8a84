# JisiluSpider grouping and statistics engine, in Dafny

JisiluSpider fetches the list of new-share (IPO) subscriptions from Jisilu.
It then works through the list in four steps:

- it keeps the records that have a lottery result;
- it derives a year key and a month key from each listing date;
- it groups the records by month;
- it computes a summary (`Statistical`) per month and one for all records.

The summary holds:

- the average lottery rate;
- rising, falling and "equal" counts of the first-day return;
- weighted totals;
- eight extremum slots: the minimum and maximum of the gray-market and first-day return rates, and of the money made with them per draw.

Each summary is written as a comma-separated line whose columns `Statistical.header()` names.

This project models that engine and proves what it does.

| Module | File | Models |
|---|---|---|
| `StockCells` | `stock_cell.dfy` | The feed row after field extraction (`Row`), the `StockCell` record, and `setDate`'s year and month keys. |
| `JavaStrings` | `java_strings.dfy` | `indexOf`, `lastIndexOf`, the comma join of `header()`, and the field split that reads such a line back. |
| `Numbers` | `numbers.dfy` | Doubles as exact reals, the two sentinels `Double.MAX_VALUE` and `Double.MIN_VALUE` with their exact values, and the NaN of `0.0 / 0`. |
| `Grouping` | `grouping.dfy` | The filter-and-group loop of `run` as a method `Partition`, proved against the functions `Ingest` and `ByMonth`. |
| `Extremes` | `extremes.dfy` | `min` and `max` as loops, proved against `MinOf` and `MaxOf`, with the properties of those functions. |
| `Layout` | `layout.dfy` | The format pattern and the static initializer that extends it, plus the header columns and their agreement with the pattern. |
| `Statistics` | `statistics.dfy` | `Statistical` as a class (details below), and `runStatistical`, proved equal to the function `Summarize`. |
| `Spider` | `spider.dfy` | `run` without its I/O, plus a three-row example and the empty feed. |

The `Statistical` class keeps its named extremum fields and its `keyValues` array in step. It also has the eight setters, `format()`, and the invariant `Valid()`, which says the fields and the array agree.

The model follows the code where the program's written description differs from it:

- **Empty feed or empty list.** The description treats an empty partition or an empty feed as a fatal division by zero. In the code, every numerator is 0.0 on an empty list: the two sums at :133 and :182 and the falling count at :460. A double 0.0 divided by a zero `int` or `long` count is NaN, not an exception, so the run goes on. `Quotient` and `EmptyFeed` model and state this. A non-zero value divided by zero would give an infinity, but no caller can reach that case, and `Quotient` requires it away.
- **Maximum search.** The description calls the maximum's sentinel the smallest positive *normal* double. `Double.MIN_VALUE` is the smallest positive *subnormal* double, 2^-1074. `MIN_VALUE` has that value.
- **Extremum correctness.** The description says the reported extremum of any non-empty partition is the true one. In the code this holds only when some value passes the sentinel. `SlotIsExtremum`, `MaxOfAtSentinel` and `MaxOfMissesNegatives` state both cases.

## Model

| member | source | states |
|---|---|---|
| StockCells.SetDate | src/main/java/com/datiehan/stock/JisiluSpider.java:517-521 | There is no key exactly when the date has no '-' (`substring(0, -1)` throws). Otherwise the year key is the prefix before the first '-' and the month key the prefix before the last '-'. |
| StockCells.KeysAreUnique | src/main/java/com/datiehan/stock/JisiluSpider.java:519-520 | The year-key and month-key predicates each determine a single key per date. |
| StockCells.SetDateExample | src/main/java/com/datiehan/stock/JisiluSpider.java:57 | 2021-02-19 gives year 2021 and month 2021-02. |
| StockCells.NewStockCell | src/main/java/com/datiehan/stock/JisiluSpider.java:68-75 | Building a cell fails exactly when setDate fails. Otherwise every field is copied from the row and the keys are setDate's. |
| JavaStrings.IndexOf | src/main/java/com/datiehan/stock/JisiluSpider.java:519 | The result is -1 exactly when the character is absent. Otherwise it is a position holding the character with no earlier occurrence. |
| JavaStrings.LastIndexOf | src/main/java/com/datiehan/stock/JisiluSpider.java:520 | The result is -1 exactly when the character is absent. Otherwise it is a position holding the character with no later occurrence. |
| JavaStrings.Join | src/main/java/com/datiehan/stock/JisiluSpider.java:412-451 | The StringBuilder chain of header(): the line starts with its first field, and a separator follows that field when there is a second. Its inverse is Split (SplitJoin). |
| JavaStrings.Split | src/main/java/com/datiehan/stock/JisiluSpider.java:412-451 | Splitting a line gives at least one field and no field contains the separator. |
| JavaStrings.IndexOfAfterField | src/main/java/com/datiehan/stock/JisiluSpider.java:412-451 | In a joined line, the first separator comes right after a separator-free first field. |
| JavaStrings.SplitJoin | src/main/java/com/datiehan/stock/JisiluSpider.java:412-451 | Splitting a comma-joined line gives back its fields when no field holds a comma. |
| JavaStrings.SplitCons | src/main/java/com/datiehan/stock/JisiluSpider.java:412-451 | A line made of a separator-free field, a separator and a rest splits into that field followed by the rest's fields. |
| Numbers.Quotient | src/main/java/com/datiehan/stock/JisiluSpider.java:133 | Division by the list size: NaN exactly when the size is 0, otherwise the quotient times the size is the sum. |
| Extremes.Min | src/main/java/com/datiehan/stock/JisiluSpider.java:217-228 | The loop returns MinOf of the cells: strict `min > value`, from ("", Double.MAX_VALUE). |
| Extremes.Max | src/main/java/com/datiehan/stock/JisiluSpider.java:230-241 | The loop returns MaxOf of the cells: strict `max < value`, from ("", Double.MIN_VALUE). |
| Extremes.MinOfIsLowerBound | src/main/java/com/datiehan/stock/JisiluSpider.java:217-228 | The minimum is at most every value and at most Double.MAX_VALUE. |
| Extremes.MinOfIsFirstMinimum | src/main/java/com/datiehan/stock/JisiluSpider.java:217-228 | If some value is below the sentinel, the result names the first cell that attains the least value, and carries that value. |
| Extremes.LastIsFirstMin | src/main/java/com/datiehan/stock/JisiluSpider.java:222-225 | A new cell strictly below all earlier ones becomes the first minimum. |
| Extremes.KeepsFirstMin | src/main/java/com/datiehan/stock/JisiluSpider.java:222-225 | A new cell not below the first minimum leaves it the first minimum: ties keep the earlier cell. |
| Extremes.MinOfAtSentinel | src/main/java/com/datiehan/stock/JisiluSpider.java:218-219 | If no value is below Double.MAX_VALUE, the result is ("", Double.MAX_VALUE). |
| Extremes.MaxOfIsUpperBound | src/main/java/com/datiehan/stock/JisiluSpider.java:230-241 | The maximum is at least every value and at least Double.MIN_VALUE. |
| Extremes.MaxOfIsFirstMaximum | src/main/java/com/datiehan/stock/JisiluSpider.java:230-241 | If some value exceeds the sentinel, the result names the first cell that attains the greatest value, and carries that value. |
| Extremes.LastIsFirstMax | src/main/java/com/datiehan/stock/JisiluSpider.java:235-238 | A new cell strictly above all earlier ones becomes the first maximum. |
| Extremes.KeepsFirstMax | src/main/java/com/datiehan/stock/JisiluSpider.java:235-238 | A new cell not above the first maximum leaves it the first maximum: ties keep the earlier cell. |
| Extremes.MaxOfAtSentinel | src/main/java/com/datiehan/stock/JisiluSpider.java:231-232 | If no value exceeds Double.MIN_VALUE, the result is ("", Double.MIN_VALUE). |
| Extremes.MaxOfMissesNegatives | src/main/java/com/datiehan/stock/JisiluSpider.java:232 | For all-negative values the reported maximum names no cell and equals no cell's value. |
| Extremes.SingleCell | src/main/java/com/datiehan/stock/JisiluSpider.java:217-241 | One cell is its own minimum and maximum unless the sentinel already beats it. |
| Grouping.Partition | src/main/java/com/datiehan/stock/JisiluSpider.java:47-81 | The loop succeeds exactly when Ingest does. Then the flat list is the ingested cells and the month map is ByMonth of them (`computeIfAbsent(...).add`). |
| Grouping.IngestAbortIsFinal | src/main/java/com/datiehan/stock/JisiluSpider.java:71 | Once a row's setDate throws, the whole run aborts, whatever rows follow. |
| Grouping.IngestSpec | src/main/java/com/datiehan/stock/JisiluSpider.java:47-81 | Ingestion succeeds exactly when every kept row's date has a '-'. It then yields one cell per kept row, in order, each built from that row. |
| Grouping.KeptCounts | src/main/java/com/datiehan/stock/JisiluSpider.java:52-54 | A row without an iporesult is dropped. Every other row is kept as often as it occurs. |
| Grouping.KeptIsSubsequence | src/main/java/com/datiehan/stock/JisiluSpider.java:47-54 | The kept rows keep their input order. |
| Grouping.ByMonthAppend | src/main/java/com/datiehan/stock/JisiluSpider.java:77-78 | Adding a cell appends it to its own month's list, creating the list if absent. No other month changes. |
| Grouping.InMonthOfAbsentMonth | src/main/java/com/datiehan/stock/JisiluSpider.java:77 | A month with no cell has an empty list. |
| Grouping.InMonthCounts | src/main/java/com/datiehan/stock/JisiluSpider.java:77-80 | A cell occurs in its own month's list exactly as often as in the flat list, and in no other month's list. |
| Grouping.InMonthIsSubsequence | src/main/java/com/datiehan/stock/JisiluSpider.java:77-80 | Each month's list keeps input order. |
| Grouping.ByMonthListsNonEmpty | src/main/java/com/datiehan/stock/JisiluSpider.java:77-78 | Every month in the map has at least one cell. |
| Grouping.ByMonthTotalSize | src/main/java/com/datiehan/stock/JisiluSpider.java:77-80 | The month lists' lengths add up to the flat list's length. |
| Layout.SlotConversions | src/main/java/com/datiehan/stock/JisiluSpider.java:406-410 | Slot k's conversions are "%s" at 2k and "%.2f" at 2k + 1. |
| Layout.InitFormat | src/main/java/com/datiehan/stock/JisiluSpider.java:404-410 | The static initializer gives the 7 scalar conversions followed by 8 copies of ", %s, %.2f": 23 conversions. |
| Layout.SlotColumnNames | src/main/java/com/datiehan/stock/JisiluSpider.java:427-449 | Slot k gets column "<slot>.name" at 2k and "<slot>.value" at 2k + 1. |
| Layout.HeaderMatchesFormat | src/main/java/com/datiehan/stock/JisiluSpider.java:404-451 | header() and the pattern both have 23 columns. The scalar names come first, and each slot's name column (a %s) and value column (a %.2f) line up. |
| Layout.ScalarColumnsLackComma | src/main/java/com/datiehan/stock/JisiluSpider.java:414-425 | No scalar column name contains a comma. |
| Layout.SlotNamesLackComma | src/main/java/com/datiehan/stock/JisiluSpider.java:427-449 | No slot name contains a comma. |
| Layout.SlotColumnsLackComma | src/main/java/com/datiehan/stock/JisiluSpider.java:427-449 | Slot columns built from comma-free names are comma-free. |
| Layout.Header | src/main/java/com/datiehan/stock/JisiluSpider.java:412-451 | header() read back at its commas gives exactly its 23 column names, in order: the 7 scalar names, then each slot's .name and .value. So there is no trailing comma and no empty field. |
| Layout.HeaderColumnsLackComma | src/main/java/com/datiehan/stock/JisiluSpider.java:414-449 | No header column name contains a comma. |
| Statistics.Count | src/main/java/com/datiehan/stock/JisiluSpider.java:135-139 | A filter count is at most the list size. |
| Statistics.Statistical.constructor | src/main/java/com/datiehan/stock/JisiluSpider.java:244-274 | A new Statistical has Java default values, all 8 slots null, and the fields agree with the array. |
| Statistics.Statistical.SetMinGrayIncRt | src/main/java/com/datiehan/stock/JisiluSpider.java:336-339 | Sets slot 0 and minGrayIncRt to kv and keeps fields and array agreeing. The frame lets nothing else change. |
| Statistics.Statistical.SetMinFirstIncRt | src/main/java/com/datiehan/stock/JisiluSpider.java:345-348 | The same for slot 1 and minFirstIncRt. |
| Statistics.Statistical.SetMaxGrayIncRt | src/main/java/com/datiehan/stock/JisiluSpider.java:354-357 | The same for slot 2 and maxGrayIncRt. |
| Statistics.Statistical.SetMaxFirstIncRt | src/main/java/com/datiehan/stock/JisiluSpider.java:363-366 | The same for slot 3 and maxFirstIncRt. |
| Statistics.Statistical.SetMinGrayIncMoney | src/main/java/com/datiehan/stock/JisiluSpider.java:372-375 | The same for slot 4 and minGrayIncMoney. |
| Statistics.Statistical.SetMinFirstIncMoney | src/main/java/com/datiehan/stock/JisiluSpider.java:381-384 | The same for slot 5 and minFirstIncMoney. |
| Statistics.Statistical.SetMaxGrayIncMoney | src/main/java/com/datiehan/stock/JisiluSpider.java:390-393 | The same for slot 6 and maxGrayIncMoney. |
| Statistics.Statistical.SetMaxFirstIncMoney | src/main/java/com/datiehan/stock/JisiluSpider.java:399-402 | The same for slot 7 and maxFirstIncMoney. |
| Statistics.Statistical.WriteScalars | src/main/java/com/datiehan/stock/JisiluSpider.java:455-462 | Columns 0-6 hold the average, the three counts, desc/total (NaN when all counts are 0), grayTotal and firtTotal. Columns 7-22 are left as they were. |
| Statistics.Statistical.Format | src/main/java/com/datiehan/stock/JisiluSpider.java:454-471 | On a filled object, the 23 arguments are those of the current contents, and they fit the pattern column by column. |
| Statistics.ScalarArgs | src/main/java/com/datiehan/stock/JisiluSpider.java:455-462 | The seven scalar arguments fit "%.2f, %d, %d, %d, %.2f, %.2f, %.2f". |
| Statistics.FormatArgs | src/main/java/com/datiehan/stock/JisiluSpider.java:454-470 | The arguments of a filled summary fit all 23 conversions of the pattern. |
| Statistics.SlotArgs | src/main/java/com/datiehan/stock/JisiluSpider.java:463-469 | Slot k's name is at 2k and its value at 2k + 1, two arguments per slot. |
| Statistics.WriteSlots | src/main/java/com/datiehan/stock/JisiluSpider.java:463-469 | The idx loop writes exactly the slot arguments after column 7 and leaves the columns before it alone. |
| Statistics.SlotArgsByIndex | src/main/java/com/datiehan/stock/JisiluSpider.java:463-469 | A sequence with each slot's name and value at 2k and 2k + 1 is the slot arguments. |
| Statistics.SlotArgsConform | src/main/java/com/datiehan/stock/JisiluSpider.java:406-410 | The slot arguments fit ", %s, %.2f" repeated once per slot. |
| Statistics.ConformsByColumns | src/main/java/com/datiehan/stock/JisiluSpider.java:404-410 | Scalar arguments of the right kinds followed by 8 slots fit the whole pattern. |
| Statistics.RunStatistical | src/main/java/com/datiehan/stock/JisiluSpider.java:130-189 | A fresh, filled Statistical whose contents are Summarize of the cells. |
| Statistics.Streams | src/main/java/com/datiehan/stock/JisiluSpider.java:132-139 | The average lottery rate and the three filter counts are the summary's. |
| Statistics.StoreScalars | src/main/java/com/datiehan/stock/JisiluSpider.java:177-186 | The seven plain setters store their values and leave all 8 slots as they were. |
| Statistics.SetExtrema | src/main/java/com/datiehan/stock/JisiluSpider.java:141-163 | After the 8 min/max calls and setters every slot is filled. Slot k holds that slot's min or max, in the order minGrayIncRt to maxFirstIncMoney. |
| Statistics.Totals | src/main/java/com/datiehan/stock/JisiluSpider.java:165-175 | The loop's grayTotal, firtTotal and sumSingleDrawMoney are the rate-times-money sums and the money sum. |
| Statistics.TallyIsStreams | src/main/java/com/datiehan/stock/JisiluSpider.java:132-175 | The one-pass tally equals the separate stream sums and counts and the totals loop. |
| Statistics.SummarySlots | src/main/java/com/datiehan/stock/JisiluSpider.java:141-163 | The 8 slots of a summary are min, min, max, max of the rates, then min, min, max, max of the per-draw money. |
| Statistics.SignCounts | src/main/java/com/datiehan/stock/JisiluSpider.java:135-137 | The rising, falling and zero counts add up to the list size. |
| Statistics.NeverCountedAsEqual | src/main/java/com/datiehan/stock/JisiluSpider.java:139 | The filter `abs(x - 0.000001) < 0` accepts no cell. |
| Statistics.CountZero | src/main/java/com/datiehan/stock/JisiluSpider.java:135-139 | A filter count is 0 exactly when no cell passes the filter. |
| Statistics.SummaryCounts | src/main/java/com/datiehan/stock/JisiluSpider.java:135-139 | numEqualStocks is 0 and rising plus falling is at most the size. The sum equals the size exactly when no first-day rate is 0. |
| Statistics.DescShare | src/main/java/com/datiehan/stock/JisiluSpider.java:460 | desc/total is NaN exactly when every first-day rate is 0. Otherwise it is the share of falling cells among the rising and falling ones. |
| Statistics.ShareOfCounts | src/main/java/com/datiehan/stock/JisiluSpider.java:460 | With numEqualStocks at 0, desc/total is NaN exactly when nothing rose or fell, otherwise falls / (rises + falls). |
| Statistics.NoneSigned | src/main/java/com/datiehan/stock/JisiluSpider.java:135-137 | No cell rises and none falls exactly when every first-day rate is 0. |
| Statistics.SlotIsExtremum | src/main/java/com/datiehan/stock/JisiluSpider.java:141-163 | Each slot is a bound of its metric that names the first cell attaining it when a value passes the sentinel, and the sentinel with an empty name otherwise. |
| Statistics.EmptySummary | src/main/java/com/datiehan/stock/JisiluSpider.java:130-189 | The summary of no cells has NaN averages, zero counts and totals, and every slot at its sentinel. |
| Statistics.ThreeCellCounts | src/main/java/com/datiehan/stock/JisiluSpider.java:135-139 | First-day rates 5, -3 and 0 give one rise, one fall and no "equal". |
| Spider.MonthCounts | src/main/java/com/datiehan/stock/JisiluSpider.java:88 | numsStockByMonth has the map's months and each month's list size. |
| Spider.MonthStatistics | src/main/java/com/datiehan/stock/JisiluSpider.java:84-94 | In any entry order, every month gets its count and a newly created Statistical describing its own list. |
| Spider.Run | src/main/java/com/datiehan/stock/JisiluSpider.java:47-97 | run fails exactly when ingestion aborts. Otherwise it returns the month counts, one new Statistical per month describing that month's cells, and a new Statistical describing all cells. |
| Spider.Aggregate | src/main/java/com/datiehan/stock/JisiluSpider.java:84-97 | From the flat list and its month map: the month counts, one new Statistical per month of the list, and a new one for the whole list. |
| Spider.MonthCountsCoverCells | src/main/java/com/datiehan/stock/JisiluSpider.java:77-88 | Month counts sum to the number of cells, and each is between 1 and that number. |
| Spider.EmptyFeed | src/main/java/com/datiehan/stock/JisiluSpider.java:52-54 | A feed with no kept row yields no cells, NaN averages and a NaN desc/total, with no exception. |
| Spider.IsoDateKeys | src/main/java/com/datiehan/stock/JisiluSpider.java:517-521 | A YYYY-MM-DD date has year YYYY and month YYYY-MM. |
| Spider.IngestKept | src/main/java/com/datiehan/stock/JisiluSpider.java:68-80 | A kept row appended to an ingested prefix appends its cell. |
| Spider.IngestThree | src/main/java/com/datiehan/stock/JisiluSpider.java:47-81 | Three kept rows with valid dates become three cells, in order. |
| Spider.GroupThree | src/main/java/com/datiehan/stock/JisiluSpider.java:77-78 | Two cells of one month and one of another give two months, with lists [c0, c1] and [c2]. |
| Spider.ThreeRowScenario | src/main/java/com/datiehan/stock/JisiluSpider.java:47-97 | Rows dated in months M, M, N with first-day rates 5, -3, 0 give two months of sizes 2 and 1. Overall there is one rise, one fall and no "equal". |

## Left out

- The HTTP request and the response check are network I/O and are not modelled.
- fastjson parsing is left out: the input is a sequence of `Row` values with the fields `run` reads, and `iporesult` only as present or absent. A missing numeric field is not modelled; in Java it would fail when unboxed.
- Creating the output directory, writing nums.txt, months.txt and total.txt, and printing to the console are not modelled. The model stops at the maps and Statistical objects those files are written from.
- `String.format` rendering of `%.2f` and `%d` is not modelled. Only the number, order and kind of columns are.
- The numbers are exact reals. IEEE-754 rounding of the sums, the products and the `* 0.01` scaling is not modelled. NaN appears only where the code divides by a zero count. Infinities and NaN inputs are not modelled.
- `long` counts are `nat`, which is unbounded; they cannot overflow for any list that fits in memory.
- HashMap iteration order is not modelled. The month map is a `map`, and `MonthStatistics` picks its entries in an arbitrary order, so its contracts hold for every order.
- Statistics.Statistical.Format: requires every slot to be set. The Java method throws when it reads an unset (null) slot, and every Statistical that `run` formats comes from `runStatistical`, which sets all eight.
- Statistics.RunStatistical: the method is split into Streams, SetExtrema, Totals and StoreScalars, one per part of the Java method. The calls happen in the same order, but the locals of one part are not visible to the next.
- The getters and the plain scalar setters of `Statistical` are not separate members. `StoreScalars` performs the seven scalar setter calls of `runStatistical` as field writes.
- `KeyValue.setValue` and `KeyValue.setName` are not modelled: no code calls them, so a KeyValue is a value here.
- Statistics.Statistical.SetMinGrayIncRt, and likewise the other seven extremum setters: the `ensures` states only the new named field and `Valid()`. The slot's new content follows from `Valid()`, and the `modifies` frame states that nothing else changes.
- Spider.MonthStatistics and Spider.Run: each returned Statistical is stated to be newly created. The contracts do not also state that two months' objects differ from each other, or from the overall one, although Java creates a separate object per call. Stating that pairwise made the month loop's proof too expensive.
