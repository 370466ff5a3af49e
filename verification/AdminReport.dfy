/**
 The Admin country report: per-country rows, totals of each enabled metric family, and the diversion
 percentage. A thrown error is an `Err`; the messages are not told apart.
 */
module AdminReport {
  import opened Outcomes
  import opened MapSums
  import opened DeliveredObserver
  import opened DeliveredCompleteness

  datatype Column = Delivered | Diverted | FilteredMeta | FilteredBots | FilteredOther

  /** One country's aggregates; an absent counter belongs to a family without history. */
  datatype Aggregate = Aggregate(
    country: string,
    delivered: Option<int>,
    diverted: Option<int>,
    filteredMeta: Option<int>,
    filteredBots: Option<int>,
    filteredOther: Option<int>)
  {
    function Get(column: Column): Option<int> {
      match column
      case Delivered => delivered
      case Diverted => diverted
      case FilteredMeta => filteredMeta
      case FilteredBots => filteredBots
      case FilteredOther => filteredOther
    }
  }

  datatype ReportInput = ReportInput(
    startMs: int,
    deliveredApplicable: bool,
    diversionCompleteFrom: Option<int>,
    filtersCompleteFrom: Option<int>,
    deliveredCompleteFrom: Option<int>,
    deliveredEvaluation: Option<Evaluation>)

  datatype PercentageState = CompletePercentage(hundredths: int) | NoEligibleClicks | Collecting | NotApplicable

  datatype Totals = Totals(
    delivered: Option<int>,
    diverted: Option<int>,
    filteredMeta: Option<int>,
    filteredBots: Option<int>,
    filteredOther: Option<int>)
  {
    function Get(column: Column): Option<int> {
      match column
      case Delivered => delivered
      case Diverted => diverted
      case FilteredMeta => filteredMeta
      case FilteredBots => filteredBots
      case FilteredOther => filteredOther
    }
  }

  datatype OutcomeRow = OutcomeRow(counters: Aggregate, total: int)

  datatype Report = Report(
    diversionAvailable: bool,
    filtersAvailable: bool,
    deliveredAvailable: bool,
    percentage: PercentageState,
    totals: Totals,
    rows: seq<OutcomeRow>)

  datatype ReportError = ReportError

  // ---------------------------------------------------------------------------------------------
  // Families
  // ---------------------------------------------------------------------------------------------

  /** Which metric families have history for the whole window. */
  datatype Families = Families(delivered: bool, diversion: bool, filters: bool) {
    predicate Has(column: Column) {
      match column
      case Delivered => delivered
      case Diverted => diversion
      case _ => filters
    }
  }

  function ActivationCovers(activationMs: Option<int>, startMs: int): Result<bool, ReportError> {
    if activationMs.None? then Ok(false)
    else if SafeEpoch(activationMs.value).None? || SafeEpoch(startMs).None? then Err(ReportError)
    else Ok(activationMs.value <= startMs)
  }

  function FamiliesOf(input: ReportInput): Result<Families, ReportError> {
    var diversion :- ActivationCovers(input.diversionCompleteFrom, input.startMs);
    var filters :- ActivationCovers(input.filtersCompleteFrom, input.startMs);
    if !input.deliveredApplicable then Ok(Families(false, diversion, filters))
    else
      var delivered :- ActivationCovers(input.deliveredCompleteFrom, input.startMs);
      Ok(Families(
           delivered && input.deliveredEvaluation.Some? && input.deliveredEvaluation.value.reason.None?,
           diversion, filters))
  }

  // ---------------------------------------------------------------------------------------------
  // Rows
  // ---------------------------------------------------------------------------------------------

  /** enabledCounter, with zero for the counters of a family that is not enabled. */
  function Value(f: Families, row: Aggregate, column: Column): int {
    if f.Has(column) && row.Get(column).Some? then row.Get(column).value else 0
  }

  function RowTotal(f: Families, row: Aggregate): int {
    Value(f, row, Delivered) + Value(f, row, Diverted) + Value(f, row, FilteredMeta)
    + Value(f, row, FilteredBots) + Value(f, row, FilteredOther)
  }

  predicate IsUsableCell(f: Families, row: Aggregate, column: Column) {
    f.Has(column) ==> row.Get(column).Some? && 0 <= row.Get(column).value <= MAX_COUNTER
  }

  predicate IsUsableRow(f: Families, row: Aggregate) {
    && IsCountry(row.country)
    && (forall column: Column :: IsUsableCell(f, row, column))
    && RowTotal(f, row) <= MAX_COUNTER
  }

  predicate AreRowsUsable(f: Families, rows: multiset<Aggregate>) {
    && (forall r | r in rows :: IsUsableRow(f, r) && rows[r] == 1)
    && (forall r, q | r in rows && q in rows && r.country == q.country :: r == q)
  }

  function ColumnOf(f: Families, rows: multiset<Aggregate>, column: Column): map<string, int>
    requires AreRowsUsable(f, rows)
  {
    map r | r in rows :: r.country := Value(f, r, column)
  }

  /** All rows are usable and every enabled column adds up within the counter range. */
  ghost predicate DoRowsFit(f: Families, rows: multiset<Aggregate>) {
    && AreRowsUsable(f, rows)
    && forall column: Column | f.Has(column) :: Sum(ColumnOf(f, rows, column)) <= MAX_COUNTER
  }

  ghost predicate AreTotals(f: Families, rows: multiset<Aggregate>, totals: Totals)
    requires AreRowsUsable(f, rows)
  {
    forall column: Column ::
      totals.Get(column) == if f.Has(column) then Some(Sum(ColumnOf(f, rows, column))) else None
  }

  // ---------------------------------------------------------------------------------------------
  // One row more
  // ---------------------------------------------------------------------------------------------

  predicate IsNewRow(f: Families, rows: multiset<Aggregate>, row: Aggregate) {
    IsUsableRow(f, row) && forall r | r in rows :: r.country != row.country
  }

  lemma RowJoins(f: Families, rows: multiset<Aggregate>, row: Aggregate)
    requires AreRowsUsable(f, rows)
    ensures IsNewRow(f, rows, row) <==> AreRowsUsable(f, rows + multiset{row})
  {
    hide IsUsableRow;
    var more := rows + multiset{row};
    assert row in more;
    if IsNewRow(f, rows, row) {
      assert row !in rows;
      forall r | r in more
        ensures IsUsableRow(f, r) && more[r] == 1
      {
        assert r in rows || r == row;
      }
    } else if IsUsableRow(f, row) {
      var twin :| twin in rows && twin.country == row.country;
      assert twin in more && more[row] >= rows[row] + 1;
    }
  }

  lemma ColumnCell(f: Families, rows: multiset<Aggregate>, column: Column, country: string)
    requires AreRowsUsable(f, rows)
    ensures country in ColumnOf(f, rows, column) <==> exists r :: r in rows && r.country == country
    ensures forall r | r in rows && r.country == country ::
              country in ColumnOf(f, rows, column) && ColumnOf(f, rows, column)[country] == Value(f, r, column)
  {
    hide IsUsableRow, Value;
  }

  lemma CellGrows(f: Families, rows: multiset<Aggregate>, row: Aggregate, column: Column, c: string)
    requires AreRowsUsable(f, rows) && IsNewRow(f, rows, row) && AreRowsUsable(f, rows + multiset{row})
    ensures var before, after := ColumnOf(f, rows, column), ColumnOf(f, rows + multiset{row}, column);
            if c == row.country then c !in before && c in after && after[c] == Value(f, row, column)
            else (c in after <==> c in before) && (c in after ==> after[c] == before[c])
  {
    hide IsUsableRow, Value, ColumnOf, AreRowsUsable;
    var more := rows + multiset{row};
    ColumnCell(f, rows, column, c);
    ColumnCell(f, more, column, c);
    assert row in more;
    if r :| r in rows && r.country == c {
      assert r in more;
    }
  }

  lemma ColumnGrows(f: Families, rows: multiset<Aggregate>, row: Aggregate, column: Column)
    requires AreRowsUsable(f, rows) && IsNewRow(f, rows, row) && AreRowsUsable(f, rows + multiset{row})
    ensures Sum(ColumnOf(f, rows + multiset{row}, column)) == Sum(ColumnOf(f, rows, column)) + Value(f, row, column)
  {
    hide IsNewRow, Value, ColumnOf, AreRowsUsable, Sum;
    var before, after := ColumnOf(f, rows, column), ColumnOf(f, rows + multiset{row}, column);
    CellGrows(f, rows, row, column, row.country);
    forall c
      ensures c in after <==> c in before[row.country := Value(f, row, column)]
      ensures c in after ==> after[c] == before[row.country := Value(f, row, column)][c]
    {
      CellGrows(f, rows, row, column, c);
    }
    assert after == before[row.country := Value(f, row, column)];
    SumWith(before, row.country, Value(f, row, column));
  }

  /** What fits also fits in part: no row list is refused for rows that it merely begins with. */
  lemma PartFits(f: Families, part: multiset<Aggregate>, rest: multiset<Aggregate>)
    requires DoRowsFit(f, part + rest)
    ensures DoRowsFit(f, part)
  {
    hide IsUsableRow;
    var all := part + rest;
    forall r | r in part
      ensures IsUsableRow(f, r) && part[r] == 1
    {
      assert r in all && part[r] <= all[r];
    }
    assert forall r | r in part :: r in all;
    forall column: Column | f.Has(column)
      ensures Sum(ColumnOf(f, part, column)) <= MAX_COUNTER
    {
      PartOfColumn(f, part, all, column);
    }
  }

  lemma PartOfColumn(f: Families, part: multiset<Aggregate>, all: multiset<Aggregate>, column: Column)
    requires AreRowsUsable(f, part) && AreRowsUsable(f, all) && forall r | r in part :: r in all
    ensures Sum(ColumnOf(f, part, column)) <= Sum(ColumnOf(f, all, column))
  {
    var a, b := ColumnOf(f, part, column), ColumnOf(f, all, column);
    ColumnsAreNonNegative(f, all, column);
    hide ColumnOf, AreRowsUsable;
    forall c | c in a
      ensures c in b && b[c] == a[c]
    {
      ColumnCell(f, part, column, c);
      ColumnCell(f, all, column, c);
    }
    SumOfPart(a, b);
  }

  lemma ColumnsAreNonNegative(f: Families, rows: multiset<Aggregate>, column: Column)
    requires AreRowsUsable(f, rows)
    ensures forall c | c in ColumnOf(f, rows, column) :: 0 <= ColumnOf(f, rows, column)[c]
  {
    forall r | r in rows
      ensures 0 <= Value(f, r, column)
    {
      assert IsUsableCell(f, r, column);
    }
  }
}
