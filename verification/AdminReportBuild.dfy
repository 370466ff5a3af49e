/** Building the Admin report row by row, and what its readers may rely on. */
module AdminReportBuild {
  import opened Outcomes
  import opened MapSums
  import opened Multiples
  import opened DeliveredObserver
  import opened DeliveredCompleteness
  import opened AdminReport

  // ---------------------------------------------------------------------------------------------
  // The report, declaratively
  // ---------------------------------------------------------------------------------------------

  /** What a row shows: the counters of the enabled families, and their sum. */
  function OutcomeOf(f: Families, row: Aggregate): OutcomeRow {
    OutcomeRow(
      Aggregate(
        row.country,
        if f.delivered then row.delivered else None,
        if f.diversion then row.diverted else None,
        if f.filters then row.filteredMeta else None,
        if f.filters then row.filteredBots else None,
        if f.filters then row.filteredOther else None),
      RowTotal(f, row))
  }

  /** compareAscii on two-letter codes. */
  predicate IsBefore(left: string, right: string)
    requires |left| == |right| == 2
  {
    left[0] < right[0] || (left[0] == right[0] && left[1] < right[1])
  }

  /** The larger total first, then by country code. */
  predicate Precedes(a: OutcomeRow, b: OutcomeRow) {
    || b.total < a.total
    || (a.total == b.total && |a.counters.country| == |b.counters.country| == 2
        && IsBefore(a.counters.country, b.counters.country))
  }

  predicate IsSorted(rows: seq<OutcomeRow>) {
    forall i, j | 0 <= i < j < |rows| :: Precedes(rows[i], rows[j])
  }

  /** Exactly the countries with a positive total, in order. */
  ghost predicate IsListing(f: Families, rows: multiset<Aggregate>, listed: seq<OutcomeRow>) {
    && IsSorted(listed)
    && forall o :: o in listed <==> exists r :: r in rows && 0 < RowTotal(f, r) && o == OutcomeOf(f, r)
  }

  /** Hundredths of a percent, rounded to the nearest, halves up. */
  function DiversionPercentage(applicable: bool, delivered: Option<int>, diverted: Option<int>): PercentageState
    requires delivered.Some? ==> 0 <= delivered.value
    requires diverted.Some? ==> 0 <= diverted.value
  {
    if !applicable then NotApplicable
    else if delivered.None? || diverted.None? then Collecting
    else
      var denominator := delivered.value + diverted.value;
      if denominator == 0 then NoEligibleClicks
      else CompletePercentage((diverted.value * 10_000 + denominator / 2) / denominator)
  }

  ghost predicate IsReportable(input: ReportInput, rows: multiset<Aggregate>) {
    && FamiliesOf(input).Ok?
    && DoRowsFit(FamiliesOf(input).value, rows)
    && (FamiliesOf(input).value.delivered ==>
          input.deliveredEvaluation.value.deliveredTotal
          == Some(Sum(ColumnOf(FamiliesOf(input).value, rows, Delivered))))
  }

  ghost predicate IsReportOf(input: ReportInput, rows: multiset<Aggregate>, report: Report)
    requires IsReportable(input, rows)
  {
    var f := FamiliesOf(input).value;
    var totals := report.totals;
    && report.diversionAvailable == f.diversion
    && report.filtersAvailable == f.filters
    && report.deliveredAvailable == f.delivered
    && AreTotals(f, rows, totals)
    && (totals.delivered.Some? ==> 0 <= totals.delivered.value)
    && (totals.diverted.Some? ==> 0 <= totals.diverted.value)
    && report.percentage == DiversionPercentage(input.deliveredApplicable, totals.delivered, totals.diverted)
    && IsListing(f, rows, report.rows)
  }

  // ---------------------------------------------------------------------------------------------
  // Sorting
  // ---------------------------------------------------------------------------------------------

  predicate AreComparable(rows: seq<OutcomeRow>) {
    && (forall i | 0 <= i < |rows| :: |rows[i].counters.country| == 2)
    && (forall i, j | 0 <= i < j < |rows| :: rows[i].counters.country != rows[j].counters.country)
  }

  function Insert(row: OutcomeRow, sorted: seq<OutcomeRow>): seq<OutcomeRow> {
    if sorted == [] || Precedes(row, sorted[0]) then [row] + sorted
    else [sorted[0]] + Insert(row, sorted[1..])
  }

  /** rows.sort with the report's comparison. */
  function Sort(rows: seq<OutcomeRow>): seq<OutcomeRow> {
    if rows == [] then [] else Insert(rows[|rows| - 1], Sort(rows[..|rows| - 1]))
  }

  lemma {:induction false} InsertKeepsSorted(row: OutcomeRow, sorted: seq<OutcomeRow>)
    requires IsSorted(sorted) && |row.counters.country| == 2
    requires forall o | o in sorted ::
               |o.counters.country| == 2 && o.counters.country != row.counters.country
    ensures IsSorted(Insert(row, sorted))
    ensures forall o :: o in Insert(row, sorted) <==> o in sorted || o == row
  {
    if sorted != [] && !Precedes(row, sorted[0]) {
      InsertKeepsSorted(row, sorted[1..]);
      var rest := Insert(row, sorted[1..]);
      assert forall o | o in rest :: Precedes(sorted[0], o);
    }
  }

  lemma {:induction false} SortIsSorted(rows: seq<OutcomeRow>)
    requires AreComparable(rows)
    ensures IsSorted(Sort(rows))
    ensures forall o :: o in Sort(rows) <==> o in rows
  {
    if rows != [] {
      var front, last := rows[..|rows| - 1], rows[|rows| - 1];
      SortIsSorted(front);
      InsertKeepsSorted(last, Sort(front));
      assert rows == front + [last];
    }
  }

  /** A listing is determined by its rows: whatever order they came in, the report is the same. */
  lemma {:induction false} SortedIsUnique(a: seq<OutcomeRow>, b: seq<OutcomeRow>)
    requires IsSorted(a) && IsSorted(b) && forall o :: o in a <==> o in b
    ensures a == b
  {
    assert b != [] ==> b[0] in b;
    if a != [] {
      assert a[0] in b && b != [];
      assert b[0] in a;
      assert a[0] == b[0];
      forall o
        ensures o in a[1..] <==> o in b[1..]
      {
        assert o in a[1..] ==> o in a && o != a[0];
        assert o in b[1..] ==> o in b && o != b[0];
      }
      SortedIsUnique(a[1..], b[1..]);
    }
  }

  /** The report does not depend on the order of the rows. */
  lemma ReportIsUnique(input: ReportInput, rows: multiset<Aggregate>, a: Report, b: Report)
    requires IsReportable(input, rows) && IsReportOf(input, rows, a) && IsReportOf(input, rows, b)
    ensures a == b
  {
    SortedIsUnique(a.rows, b.rows);
    assert a.totals.Get(Delivered) == b.totals.Get(Delivered) && a.totals.Get(Diverted) == b.totals.Get(Diverted);
    assert a.totals.Get(FilteredMeta) == b.totals.Get(FilteredMeta);
    assert a.totals.Get(FilteredBots) == b.totals.Get(FilteredBots);
    assert a.totals.Get(FilteredOther) == b.totals.Get(FilteredOther);
    hide IsListing, AreTotals, DoRowsFit, FamiliesOf;
  }

  // ---------------------------------------------------------------------------------------------
  // The loops
  // ---------------------------------------------------------------------------------------------

  /** enabledCounter. */
  function EnabledCounter(value: Option<int>, enabled: bool): Result<Option<int>, ReportError> {
    if !enabled then Ok(None)
    else if value.None? || value.value < 0 || MAX_COUNTER < value.value then Err(ReportError)
    else Ok(value)
  }

  function SumOfValues(values: seq<Option<int>>): int {
    if values == [] then 0 else SumOfValues(values[..|values| - 1]) + values[|values| - 1].GetOr(0)
  }

  lemma {:induction false} SumsOfPrefixesGrow(values: seq<Option<int>>, n: nat)
    requires n <= |values| && forall v | v in values && v.Some? :: 0 <= v.value
    ensures SumOfValues(values[..n]) <= SumOfValues(values)
  {
    if n < |values| {
      var front := values[..|values| - 1];
      SumsOfPrefixesGrow(front, n);
      assert front[..n] == values[..n];
      assert values[|values| - 1] in values;
    } else {
      assert values[..n] == values;
    }
  }

  method CheckedSum(values: seq<Option<int>>) returns (r: Result<int, ReportError>)
    requires forall v | v in values && v.Some? :: 0 <= v.value
    ensures r.Ok? <==> SumOfValues(values) <= MAX_COUNTER
    ensures r.Ok? ==> r.value == SumOfValues(values)
  {
    var total := 0;
    for i := 0 to |values|
      invariant total == SumOfValues(values[..i]) && total <= MAX_COUNTER
    {
      assert values[..i + 1][..i] == values[..i];
      SumsOfPrefixesGrow(values, i + 1);
      if values[i].Some? {
        if MAX_COUNTER - values[i].value < total {
          return Err(ReportError);
        }
        total := total + values[i].value;
      }
    }
    assert values[..|values|] == values;
    return Ok(total);
  }

  /** The counters of one row, checked; `Err` exactly for a row that is not usable. */
  method ReadRow(f: Families, row: Aggregate) returns (r: Result<OutcomeRow, ReportError>)
    ensures r.Ok? <==> IsUsableRow(f, row)
    ensures r.Ok? ==> r.value == OutcomeOf(f, row)
  {
    if !IsCountry(row.country) {
      return Err(ReportError);
    }
    var delivered := EnabledCounter(row.delivered, f.delivered);
    var diverted := EnabledCounter(row.diverted, f.diversion);
    var meta := EnabledCounter(row.filteredMeta, f.filters);
    var bots := EnabledCounter(row.filteredBots, f.filters);
    var other := EnabledCounter(row.filteredOther, f.filters);
    assert delivered.Ok? <==> IsUsableCell(f, row, Delivered);
    assert diverted.Ok? <==> IsUsableCell(f, row, Diverted);
    assert meta.Ok? <==> IsUsableCell(f, row, FilteredMeta);
    assert bots.Ok? <==> IsUsableCell(f, row, FilteredBots);
    assert other.Ok? <==> IsUsableCell(f, row, FilteredOther);
    if delivered.Err? || diverted.Err? || meta.Err? || bots.Err? || other.Err? {
      return Err(ReportError);
    }
    var values := [delivered.value, diverted.value, meta.value, bots.value, other.value];
    FiveValues(delivered.value, diverted.value, meta.value, bots.value, other.value);
    var total := CheckedSum(values);
    if total.Err? {
      return Err(ReportError);
    }
    return Ok(OutcomeRow(
                Aggregate(row.country, delivered.value, diverted.value, meta.value, bots.value, other.value),
                total.value));
  }

  lemma FiveValues(a: Option<int>, b: Option<int>, c: Option<int>, d: Option<int>, e: Option<int>)
    ensures SumOfValues([a, b, c, d, e]) == a.GetOr(0) + b.GetOr(0) + c.GetOr(0) + d.GetOr(0) + e.GetOr(0)
  {
    assert [a][..0] == [] && SumOfValues([a]) == a.GetOr(0);
    assert [a, b][..1] == [a] && SumOfValues([a, b]) == SumOfValues([a]) + b.GetOr(0);
    assert [a, b, c][..2] == [a, b] && SumOfValues([a, b, c]) == SumOfValues([a, b]) + c.GetOr(0);
    assert [a, b, c, d][..3] == [a, b, c] && SumOfValues([a, b, c, d]) == SumOfValues([a, b, c]) + d.GetOr(0);
    assert [a, b, c, d, e][..4] == [a, b, c, d];
  }

  function AddNullable(total: Option<int>, value: Option<int>): Result<Option<int>, ReportError> {
    if total.None? || value.None? then Ok(total)
    else if MAX_COUNTER - value.value < total.value then Err(ReportError)
    else Ok(Some(total.value + value.value))
  }

  function AddRow(totals: Totals, row: Aggregate): Result<Totals, ReportError> {
    var delivered :- AddNullable(totals.delivered, row.delivered);
    var diverted :- AddNullable(totals.diverted, row.diverted);
    var meta :- AddNullable(totals.filteredMeta, row.filteredMeta);
    var bots :- AddNullable(totals.filteredBots, row.filteredBots);
    var other :- AddNullable(totals.filteredOther, row.filteredOther);
    Ok(Totals(delivered, diverted, meta, bots, other))
  }

  function NoTotals(f: Families): Totals {
    Totals(
      if f.delivered then Some(0) else None,
      if f.diversion then Some(0) else None,
      if f.filters then Some(0) else None,
      if f.filters then Some(0) else None,
      if f.filters then Some(0) else None)
  }

  lemma AddRowByColumn(totals: Totals, row: Aggregate)
    ensures AddRow(totals, row).Ok? <==> forall column: Column :: AddNullable(totals.Get(column), row.Get(column)).Ok?
    ensures AddRow(totals, row).Ok? ==>
              forall column: Column ::
                AddRow(totals, row).value.Get(column) == AddNullable(totals.Get(column), row.Get(column)).value
  {
    hide AddNullable;
    assert totals.Get(Delivered) == totals.delivered && row.Get(Delivered) == row.delivered;
    assert totals.Get(Diverted) == totals.diverted && row.Get(Diverted) == row.diverted;
    assert totals.Get(FilteredMeta) == totals.filteredMeta && row.Get(FilteredMeta) == row.filteredMeta;
    assert totals.Get(FilteredBots) == totals.filteredBots && row.Get(FilteredBots) == row.filteredBots;
    assert totals.Get(FilteredOther) == totals.filteredOther && row.Get(FilteredOther) == row.filteredOther;
  }

  ghost function ColumnTotal(f: Families, rows: multiset<Aggregate>, column: Column): Option<int>
    requires AreRowsUsable(f, rows)
  {
    if f.Has(column) then Some(Sum(ColumnOf(f, rows, column))) else None
  }

  lemma ColumnAdds(f: Families, rows: multiset<Aggregate>, row: Aggregate, column: Column)
    requires AreRowsUsable(f, rows) && IsNewRow(f, rows, row) && AreRowsUsable(f, rows + multiset{row})
    ensures var added := AddNullable(ColumnTotal(f, rows, column), OutcomeOf(f, row).counters.Get(column));
            var total := ColumnTotal(f, rows + multiset{row}, column);
            && (added.Ok? <==> (total.Some? ==> total.value <= MAX_COUNTER))
            && (added.Ok? ==> added.value == total)
  {
    hide ColumnOf, AreRowsUsable, IsUsableRow, Sum, OutcomeOf, Aggregate.Get;
    ColumnGrows(f, rows, row, column);
    CellIsPresent(f, row, column);
  }

  /** Adding a new row to totals that fit fails exactly when some enabled column runs over. */
  lemma RowAdds(f: Families, rows: multiset<Aggregate>, totals: Totals, row: Aggregate)
    requires DoRowsFit(f, rows) && AreTotals(f, rows, totals)
    requires IsNewRow(f, rows, row) && AreRowsUsable(f, rows + multiset{row})
    ensures AddRow(totals, OutcomeOf(f, row).counters).Ok? <==> DoRowsFit(f, rows + multiset{row})
    ensures AddRow(totals, OutcomeOf(f, row).counters).Ok? ==>
              AreTotals(f, rows + multiset{row}, AddRow(totals, OutcomeOf(f, row).counters).value)
  {
    hide ColumnOf, AreRowsUsable, IsNewRow, Sum, OutcomeOf, AddRow, AddNullable;
    var shown := OutcomeOf(f, row).counters;
    AddRowByColumn(totals, shown);
    forall column: Column
      ensures totals.Get(column) == ColumnTotal(f, rows, column)
      ensures var added := AddNullable(totals.Get(column), shown.Get(column));
              var total := ColumnTotal(f, rows + multiset{row}, column);
              && (added.Ok? <==> (total.Some? ==> total.value <= MAX_COUNTER))
              && (added.Ok? ==> added.value == total)
    {
      assert totals.Get(column) == ColumnTotal(f, rows, column);
      ColumnAdds(f, rows, row, column);
    }
    assert DoRowsFit(f, rows + multiset{row}) <==>
      forall column: Column ::
        ColumnTotal(f, rows + multiset{row}, column).Some? ==>
          ColumnTotal(f, rows + multiset{row}, column).value <= MAX_COUNTER;
  }

  lemma CellIsPresent(f: Families, row: Aggregate, column: Column)
    requires IsUsableRow(f, row)
    ensures f.Has(column) ==>
              && row.Get(column) == Some(Value(f, row, column))
              && OutcomeOf(f, row).counters.Get(column) == Some(Value(f, row, column))
    ensures !f.Has(column) ==> OutcomeOf(f, row).counters.Get(column) == None
  {
    assert IsUsableCell(f, row, column);
  }

  lemma ZeroRowIsZero(f: Families, row: Aggregate)
    requires IsUsableRow(f, row) && RowTotal(f, row) == 0
    ensures forall column: Column :: Value(f, row, column) == 0
  {
    assert IsUsableCell(f, row, Delivered) && IsUsableCell(f, row, Diverted) && IsUsableCell(f, row, FilteredMeta);
    assert IsUsableCell(f, row, FilteredBots) && IsUsableCell(f, row, FilteredOther);
    forall column: Column
      ensures Value(f, row, column) == 0
    {
      match column
      case Delivered =>
      case Diverted =>
      case FilteredMeta =>
      case FilteredBots =>
      case FilteredOther =>
    }
  }

  /** A row of zeros changes no total. */
  lemma ZeroRowAddsNothing(f: Families, rows: multiset<Aggregate>, totals: Totals, row: Aggregate)
    requires DoRowsFit(f, rows) && AreTotals(f, rows, totals)
    requires IsNewRow(f, rows, row) && AreRowsUsable(f, rows + multiset{row}) && RowTotal(f, row) == 0
    ensures DoRowsFit(f, rows + multiset{row}) && AreTotals(f, rows + multiset{row}, totals)
  {
    ZeroRowIsZero(f, row);
    hide ColumnOf, AreRowsUsable, IsUsableRow, Sum, Value;
    forall column: Column
      ensures Sum(ColumnOf(f, rows + multiset{row}, column)) == Sum(ColumnOf(f, rows, column))
    {
      ColumnGrows(f, rows, row, column);
    }
  }

  /** The rows pushed so far. */
  ghost predicate ArePushed(f: Families, rows: multiset<Aggregate>, pushed: seq<OutcomeRow>) {
    && AreComparable(pushed)
    && forall o :: o in pushed <==> exists r :: r in rows && 0 < RowTotal(f, r) && o == OutcomeOf(f, r)
  }

  lemma PushedGrow(f: Families, rows: multiset<Aggregate>, row: Aggregate, pushed: seq<OutcomeRow>)
    requires ArePushed(f, rows, pushed) && IsNewRow(f, rows, row)
    ensures ArePushed(
              f, rows + multiset{row}, if 0 < RowTotal(f, row) then pushed + [OutcomeOf(f, row)] else pushed)
  {
    hide RowTotal, IsUsableRow;
    assert |row.country| == 2 by {
      UsableCountry(f, row);
    }
    var next := if 0 < RowTotal(f, row) then pushed + [OutcomeOf(f, row)] else pushed;
    var more := rows + multiset{row};
    forall o
      ensures o in next <==> exists r :: r in more && 0 < RowTotal(f, r) && o == OutcomeOf(f, r)
    {
      if r :| r in more && 0 < RowTotal(f, r) && o == OutcomeOf(f, r) {
        assert r in rows || r == row;
      }
      if o in pushed {
        var r :| r in rows && 0 < RowTotal(f, r) && o == OutcomeOf(f, r);
        assert r in more;
      }
      if 0 < RowTotal(f, row) && o == OutcomeOf(f, row) {
        assert row in more;
      }
    }
    forall i | 0 <= i < |pushed|
      ensures pushed[i].counters.country != row.country
    {
      assert pushed[i] in pushed;
    }
  }

  lemma UsableCountry(f: Families, row: Aggregate)
    requires IsUsableRow(f, row)
    ensures |row.country| == 2
  {
  }

  lemma NothingPushed(f: Families)
    ensures DoRowsFit(f, multiset{}) && AreTotals(f, multiset{}, NoTotals(f)) && ArePushed(f, multiset{}, [])
  {
  }

  /** A list is refused as soon as a part of it is. */
  lemma RefusedEarly(f: Families, rows: seq<Aggregate>, n: nat)
    requires n <= |rows| && !DoRowsFit(f, multiset(rows[..n]))
    ensures !DoRowsFit(f, multiset(rows))
  {
    hide DoRowsFit;
    assert rows == rows[..n] + rows[n..];
    if DoRowsFit(f, multiset(rows)) {
      assert multiset(rows) == multiset(rows[..n]) + multiset(rows[n..]);
      PartFits(f, multiset(rows[..n]), multiset(rows[n..]));
    }
  }

  method CollectRows(f: Families, rows: seq<Aggregate>)
    returns (r: Result<(Totals, seq<OutcomeRow>), ReportError>)
    ensures r.Ok? <==> DoRowsFit(f, multiset(rows))
    ensures r.Ok? ==> AreTotals(f, multiset(rows), r.value.0) && ArePushed(f, multiset(rows), r.value.1)
  {
    hide AreTotals, ArePushed, IsUsableRow, RowTotal, AddRow, IsCountry, ColumnOf, OutcomeOf;
    var seen: set<string> := {};
    var totals, pushed := NoTotals(f), [];
    NothingPushed(f);
    for i := 0 to |rows|
      invariant DoRowsFit(f, multiset(rows[..i])) && AreTotals(f, multiset(rows[..i]), totals)
      invariant ArePushed(f, multiset(rows[..i]), pushed)
      invariant seen == set a | a in multiset(rows[..i]) :: a.country
    {
      var row := rows[i];
      ghost var before := multiset(rows[..i]);
      Prefixes(rows, i);
      RowJoins(f, before, row);
      if row.country in seen {
        RefusedEarly(f, rows, i + 1);
        return Err(ReportError);
      }
      seen := seen + {row.country};
      var shown := ReadRow(f, row);
      if shown.Err? {
        RefusedEarly(f, rows, i + 1);
        return Err(ReportError);
      }
      PushedGrow(f, before, row, pushed);
      TotalOf(f, row);
      if shown.value.total == 0 {
        ZeroRowAddsNothing(f, before, totals, row);
      } else {
        RowAdds(f, before, totals, row);
        var added := AddRow(totals, shown.value.counters);
        if added.Err? {
          RefusedEarly(f, rows, i + 1);
          return Err(ReportError);
        }
        totals := added.value;
        pushed := pushed + [shown.value];
      }
    }
    assert rows[..|rows|] == rows;
    return Ok((totals, pushed));
  }

  lemma TotalOf(f: Families, row: Aggregate)
    requires IsUsableRow(f, row)
    ensures OutcomeOf(f, row).total == RowTotal(f, row) && 0 <= RowTotal(f, row)
  {
    assert IsUsableCell(f, row, Delivered) && IsUsableCell(f, row, Diverted) && IsUsableCell(f, row, FilteredMeta);
    assert IsUsableCell(f, row, FilteredBots) && IsUsableCell(f, row, FilteredOther);
  }

  lemma TotalsAreCounters(f: Families, rows: multiset<Aggregate>, totals: Totals, column: Column)
    requires DoRowsFit(f, rows) && AreTotals(f, rows, totals)
    ensures totals.Get(column).Some? ==> 0 <= totals.Get(column).value <= MAX_COUNTER
  {
    ColumnsAreNonNegative(f, rows, column);
    SumOfNonNegatives(ColumnOf(f, rows, column));
    hide ColumnOf, Sum;
    assert totals.Get(column) == if f.Has(column) then Some(Sum(ColumnOf(f, rows, column))) else None;
  }

  /** The report exists exactly for reportable input, and is the report of its rows in any order. */
  method BuildAdminCountryOutcomeReport(input: ReportInput, rows: seq<Aggregate>)
    returns (r: Result<Report, ReportError>)
    ensures r.Ok? <==> IsReportable(input, multiset(rows))
    ensures r.Ok? ==> IsReportOf(input, multiset(rows), r.value)
  {
    hide DoRowsFit, ArePushed, ColumnOf, IsSorted, Sort;
    var families := FamiliesOf(input);
    if families.Err? {
      return Err(ReportError);
    }
    var f := families.value;
    var collected := CollectRows(f, rows);
    if collected.Err? {
      return Err(ReportError);
    }
    var (totals, pushed) := collected.value;
    assert totals.delivered == totals.Get(Delivered) && totals.diverted == totals.Get(Diverted);
    TotalsAreCounters(f, multiset(rows), totals, Delivered);
    TotalsAreCounters(f, multiset(rows), totals, Diverted);
    if f.delivered && input.deliveredEvaluation.value.deliveredTotal != totals.delivered {
      return Err(ReportError);
    }
    PushedIsListing(f, multiset(rows), pushed);
    var percentage := DiversionPercentage(input.deliveredApplicable, totals.delivered, totals.diverted);
    return Ok(Report(f.diversion, f.filters, f.delivered, percentage, totals, Sort(pushed)));
  }

  lemma PushedIsListing(f: Families, rows: multiset<Aggregate>, pushed: seq<OutcomeRow>)
    requires ArePushed(f, rows, pushed)
    ensures IsListing(f, rows, Sort(pushed))
  {
    SortIsSorted(pushed);
  }

  // ---------------------------------------------------------------------------------------------
  // Rounding
  // ---------------------------------------------------------------------------------------------

  /** The percentage is within half a hundredth of the exact one, and between 0.00 and 100.00. */
  lemma PercentageIsNearest(delivered: int, diverted: int)
    requires 0 <= delivered && 0 <= diverted && 0 < delivered + diverted
    ensures var p := DiversionPercentage(true, Some(delivered), Some(diverted));
            && p.CompletePercentage?
            && 0 <= p.hundredths <= 10_000
            && var error := p.hundredths * (delivered + diverted) - diverted * 10_000;
            -(delivered + diverted) <= 2 * error <= delivered + diverted
  {
    var d := delivered + diverted;
    var h := (diverted * 10_000 + d / 2) / d;
    assert h * d <= diverted * 10_000 + d / 2 < (h + 1) * d;
    assert (h + 1) * d == h * d + d;
    QuotientIsBounded(h, d, diverted);
  }

  lemma QuotientIsBounded(h: int, d: int, diverted: int)
    requires 0 < d && 0 <= diverted <= d && h == (diverted * 10_000 + d / 2) / d
    ensures 0 <= h <= 10_000
  {
    if 10_000 < h {
      MultiplesAreOrdered(10_001, h, d);
      assert false;
    }
  }

  // ---------------------------------------------------------------------------------------------
  // What the view checks before it prints
  // ---------------------------------------------------------------------------------------------

  predicate IsDigit(c: char) {
    '0' <= c <= '9'
  }

  predicate AreDigits(text: string, least: nat, most: nat) {
    least <= |text| <= most && forall i | 0 <= i < |text| :: IsDigit(text[i])
  }

  function Digit(n: int): char
    requires 0 <= n < 10
  {
    '0' + n as char
  }

  /** A counter's decimal text. */
  function Decimal(n: int): string
    requires 0 <= n
  {
    if n < 10 then [Digit(n)] else Decimal(n / 10) + [Digit(n % 10)]
  }

  function Power10(k: nat): int {
    if k == 0 then 1 else 10 * Power10(k - 1)
  }

  lemma {:induction false} DecimalHasDigits(n: int, k: nat)
    requires 0 <= n < Power10(k) && 1 <= k
    ensures AreDigits(Decimal(n), 1, k)
  {
    if 10 <= n {
      DecimalHasDigits(n / 10, k - 1);
    }
  }

  /** `1.05`: the hundredths below one percent keep two digits. */
  function PercentText(hundredths: int): string
    requires 0 <= hundredths
  {
    var cents := hundredths % 100;
    Decimal(hundredths / 100) + "." + (if cents < 10 then ['0'] + Decimal(cents) else Decimal(cents))
  }

  /** One to three digits, a point, two digits. */
  predicate IsPercentLabel(text: string) {
    && 4 <= |text| <= 6
    && AreDigits(text[..|text| - 3], 1, 3) && text[|text| - 3] == '.' && AreDigits(text[|text| - 2..], 2, 2)
  }

  lemma PercentTextIsLabel(hundredths: int)
    requires 0 <= hundredths <= 10_000
    ensures IsPercentLabel(PercentText(hundredths))
  {
    assert Power10(1) == 10 && Power10(2) == 100 && Power10(3) == 1000;
    var whole, cents := hundredths / 100, hundredths % 100;
    DecimalHasDigits(whole, 3);
    DecimalHasDigits(cents, if cents < 10 then 1 else 2);
    assert 10 <= cents ==> Decimal(cents) == [Digit(cents / 10)] + [Digit(cents % 10)];
    var tail := if cents < 10 then ['0'] + Decimal(cents) else Decimal(cents);
    var text := PercentText(hundredths);
    assert text[..|text| - 3] == Decimal(whole) && text[|text| - 2..] == tail;
  }

  /** What metricLabel lets through. */
  predicate IsMetric(value: Option<int>) {
    value.Some? ==> 0 <= value.value <= MAX_COUNTER && AreDigits(Decimal(value.value), 1, 19)
  }

  lemma CountersAreMetrics(value: Option<int>)
    requires value.Some? ==> 0 <= value.value <= MAX_COUNTER
    ensures IsMetric(value)
  {
    if value.Some? {
      NineteenDigits();
      DecimalHasDigits(value.value, 19);
      hide AreDigits, Decimal, Power10;
    }
  }

  /** A listed row shows the usable cells of the families that are enabled, and nothing else. */
  lemma ListedCells(f: Families, rows: multiset<Aggregate>, listed: seq<OutcomeRow>, o: OutcomeRow, column: Column)
    requires AreRowsUsable(f, rows) && IsListing(f, rows, listed) && o in listed
    ensures o.counters.Get(column).Some? <==> f.Has(column)
    ensures o.counters.Get(column).Some? ==> 0 <= o.counters.Get(column).value <= MAX_COUNTER
  {
    var r :| r in rows && 0 < RowTotal(f, r) && o == OutcomeOf(f, r);
    assert IsUsableRow(f, r) && IsUsableCell(f, r, column);
  }

  /**
   No report makes the view's format checks throw: every total, and every cell of every listed row, prints
   as 1 to 19 digits, and the percentage fits.
   */
  lemma ReportsPassTheView(input: ReportInput, rows: multiset<Aggregate>, report: Report)
    requires IsReportable(input, rows) && IsReportOf(input, rows, report)
    ensures forall column: Column :: IsMetric(report.totals.Get(column))
    ensures forall o, column: Column | o in report.rows :: IsMetric(o.counters.Get(column))
    ensures report.percentage.CompletePercentage? ==>
              0 <= report.percentage.hundredths && IsPercentLabel(PercentText(report.percentage.hundredths))
  {
    var f := FamiliesOf(input).value;
    forall column: Column
      ensures IsMetric(report.totals.Get(column))
    {
      TotalsAreCounters(f, rows, report.totals, column);
      CountersAreMetrics(report.totals.Get(column));
    }
    forall o, column: Column | o in report.rows
      ensures IsMetric(o.counters.Get(column))
    {
      ListedCells(f, rows, report.rows, o, column);
      CountersAreMetrics(o.counters.Get(column));
    }
    if report.percentage.CompletePercentage? {
      PercentageIsNearest(report.totals.delivered.value, report.totals.diverted.value);
      PercentTextIsLabel(report.percentage.hundredths);
    }
    hide IsListing, AreTotals, DoRowsFit, IsMetric, IsPercentLabel, FamiliesOf, PercentText;
  }

  lemma NineteenDigits()
    ensures MAX_COUNTER < Power10(19)
  {
    assert Power10(5) == 100_000;
    assert Power10(10) == 10_000_000_000;
    assert Power10(15) == 1_000_000_000_000_000;
    assert Power10(19) == 10_000_000_000_000_000_000;
  }
}
