/** What a reader of the Admin report may take its parts to mean, said of the input and the rows alone. */
module AdminReportLaws {
  import opened Outcomes
  import opened MapSums
  import opened DeliveredObserver
  import opened DeliveredCompleteness
  import opened AdminReport
  import opened AdminReportBuild

  /** The family has been counted since `sinceMs`, which is no later than the window's start. */
  predicate IsCovered(sinceMs: Option<int>, startMs: int) {
    sinceMs.Some? && sinceMs.value <= startMs
  }

  /** A valid date at a whole second. */
  predicate IsWholeSecond(ms: int) {
    -8_640_000_000_000_000 <= ms <= 8_640_000_000_000_000 && ms % 1000 == 0
  }

  predicate IsReadable(sinceMs: Option<int>, startMs: int) {
    sinceMs.Some? ==> IsWholeSecond(sinceMs.value) && IsWholeSecond(startMs)
  }

  /**
   Each family is shown exactly when it was counted from the window's start on, whatever the other families
   are; the delivered one also needs a complete evaluation of a domain to which it applies.
   */
  lemma FamiliesAreIndependent(input: ReportInput)
    ensures FamiliesOf(input).Ok? <==>
              && IsReadable(input.diversionCompleteFrom, input.startMs)
              && IsReadable(input.filtersCompleteFrom, input.startMs)
              && (input.deliveredApplicable ==> IsReadable(input.deliveredCompleteFrom, input.startMs))
    ensures FamiliesOf(input).Ok? ==>
              var f := FamiliesOf(input).value;
              && (f.diversion <==> IsCovered(input.diversionCompleteFrom, input.startMs))
              && (f.filters <==> IsCovered(input.filtersCompleteFrom, input.startMs))
              && (f.delivered <==>
                    && input.deliveredApplicable && IsCovered(input.deliveredCompleteFrom, input.startMs)
                    && input.deliveredEvaluation.Some? && input.deliveredEvaluation.value.reason.None?)
  {
  }

  /** The five columns of a report, each shown with its family. */
  lemma TotalsFollowFamilies(input: ReportInput, rows: multiset<Aggregate>, report: Report)
    requires IsReportable(input, rows) && IsReportOf(input, rows, report)
    ensures report.diversionAvailable <==> IsCovered(input.diversionCompleteFrom, input.startMs)
    ensures report.filtersAvailable <==> IsCovered(input.filtersCompleteFrom, input.startMs)
    ensures report.deliveredAvailable <==>
              && input.deliveredApplicable && IsCovered(input.deliveredCompleteFrom, input.startMs)
              && input.deliveredEvaluation.Some? && input.deliveredEvaluation.value.reason.None?
    ensures report.totals.delivered.Some? <==> report.deliveredAvailable
    ensures report.totals.diverted.Some? <==> report.diversionAvailable
    ensures report.totals.filteredMeta.Some? <==> report.filtersAvailable
    ensures report.totals.filteredBots.Some? <==> report.filtersAvailable
    ensures report.totals.filteredOther.Some? <==> report.filtersAvailable
    ensures report.deliveredAvailable ==> report.totals.delivered == input.deliveredEvaluation.value.deliveredTotal
  {
    FamiliesAreIndependent(input);
    assert report.totals.Get(Delivered) == report.totals.delivered;
    assert report.totals.Get(Diverted) == report.totals.diverted;
    assert report.totals.Get(FilteredMeta) == report.totals.filteredMeta;
    assert report.totals.Get(FilteredBots) == report.totals.filteredBots;
    assert report.totals.Get(FilteredOther) == report.totals.filteredOther;
    hide FamiliesOf, IsListing, DoRowsFit, ColumnOf, Sum;
  }

  /** The cell of an input row, if its family is shown. */
  predicate IsCellOf(shown: Option<int>, isShown: bool, counter: Option<int>) {
    if isShown then counter.Some? && shown == counter else shown == None
  }

  predicate IsLineOf(f: Families, row: Aggregate, line: OutcomeRow) {
    && line.counters.country == row.country
    && IsCellOf(line.counters.delivered, f.delivered, row.delivered)
    && IsCellOf(line.counters.diverted, f.diversion, row.diverted)
    && IsCellOf(line.counters.filteredMeta, f.filters, row.filteredMeta)
    && IsCellOf(line.counters.filteredBots, f.filters, row.filteredBots)
    && IsCellOf(line.counters.filteredOther, f.filters, row.filteredOther)
    && line.total == line.counters.delivered.GetOr(0) + line.counters.diverted.GetOr(0)
                     + line.counters.filteredMeta.GetOr(0) + line.counters.filteredBots.GetOr(0)
                     + line.counters.filteredOther.GetOr(0)
  }

  lemma ShownLine(f: Families, rows: multiset<Aggregate>, row: Aggregate)
    requires AreRowsUsable(f, rows) && row in rows
    ensures IsLineOf(f, row, OutcomeOf(f, row))
  {
    assert IsUsableRow(f, row);
    assert IsUsableCell(f, row, Delivered) && IsUsableCell(f, row, Diverted) && IsUsableCell(f, row, FilteredMeta);
    assert IsUsableCell(f, row, FilteredBots) && IsUsableCell(f, row, FilteredOther);
    assert row.Get(Delivered) == row.delivered && row.Get(Diverted) == row.diverted;
    assert row.Get(FilteredMeta) == row.filteredMeta && row.Get(FilteredBots) == row.filteredBots;
    assert row.Get(FilteredOther) == row.filteredOther;
  }

  /** The larger total comes first, and of equal ones the country that is first in the alphabet. */
  predicate IsListedBefore(a: OutcomeRow, b: OutcomeRow) {
    || b.total < a.total
    || (a.total == b.total
        && |a.counters.country| == 2 && |b.counters.country| == 2
        && (a.counters.country[0] < b.counters.country[0]
            || (a.counters.country[0] == b.counters.country[0]
                && a.counters.country[1] < b.counters.country[1])))
  }

  ghost predicate IsLineOfSome(f: Families, rows: multiset<Aggregate>, line: OutcomeRow) {
    exists row :: row in rows && IsLineOf(f, row, line)
  }

  /** The row's line is listed if it has anything to show. */
  ghost predicate IsListedIfAny(f: Families, row: Aggregate, listed: seq<OutcomeRow>) {
    exists line :: IsLineOf(f, row, line) && (0 < line.total ==> line in listed)
  }

  lemma ListedLineHasRow(f: Families, rows: multiset<Aggregate>, listed: seq<OutcomeRow>, line: OutcomeRow)
    requires AreRowsUsable(f, rows) && IsListing(f, rows, listed) && line in listed
    ensures 0 < line.total && IsLineOfSome(f, rows, line)
  {
    hide AreRowsUsable, IsSorted, IsLineOf, RowTotal;
    var row :| row in rows && 0 < RowTotal(f, row) && line == OutcomeOf(f, row);
    ShownLine(f, rows, row);
  }

  lemma RowIsListed(f: Families, rows: multiset<Aggregate>, listed: seq<OutcomeRow>, row: Aggregate)
    requires AreRowsUsable(f, rows) && IsListing(f, rows, listed) && row in rows
    ensures IsListedIfAny(f, row, listed)
  {
    hide AreRowsUsable, IsSorted, IsLineOf, RowTotal;
    ShownLine(f, rows, row);
    assert 0 < OutcomeOf(f, row).total ==> OutcomeOf(f, row) in listed;
  }

  /**
   The lines of a report: one for every row with something to show, none for any other, each with its own
   row's counters and their sum, by falling total and then by country.
   */
  lemma LinesAreRows(input: ReportInput, rows: multiset<Aggregate>, report: Report)
    requires IsReportable(input, rows) && IsReportOf(input, rows, report)
    ensures var f := FamiliesOf(input).value;
            && (forall line | line in report.rows :: 0 < line.total && IsLineOfSome(f, rows, line))
            && (forall row | row in rows :: IsListedIfAny(f, row, report.rows))
    ensures forall i, j | 0 <= i < j < |report.rows| :: IsListedBefore(report.rows[i], report.rows[j])
  {
    var f := FamiliesOf(input).value;
    ReportLists(input, rows, report);
    hide FamiliesOf, IsReportable, IsReportOf, IsListing, AreRowsUsable, IsLineOfSome, IsListedIfAny;
    forall line | line in report.rows
      ensures 0 < line.total && IsLineOfSome(f, rows, line)
    {
      ListedLineHasRow(f, rows, report.rows, line);
    }
    forall row | row in rows
      ensures IsListedIfAny(f, row, report.rows)
    {
      RowIsListed(f, rows, report.rows, row);
    }
  }

  lemma ReportLists(input: ReportInput, rows: multiset<Aggregate>, report: Report)
    requires IsReportable(input, rows) && IsReportOf(input, rows, report)
    ensures AreRowsUsable(FamiliesOf(input).value, rows)
    ensures IsListing(FamiliesOf(input).value, rows, report.rows)
    ensures forall i, j | 0 <= i < j < |report.rows| :: IsListedBefore(report.rows[i], report.rows[j])
  {
    hide FamiliesOf, ColumnOf, Sum, DiversionPercentage, RowTotal, AreRowsUsable, OutcomeOf;
    forall i, j | 0 <= i < j < |report.rows|
      ensures IsListedBefore(report.rows[i], report.rows[j])
    {
      assert Precedes(report.rows[i], report.rows[j]);
    }
  }

  predicate IsNearest(hundredths: int, delivered: int, diverted: int) {
    var clicks := delivered + diverted;
    0 < clicks && -clicks <= 2 * (hundredths * clicks - diverted * 10_000) <= clicks
  }

  lemma PercentageStates(applicable: bool, delivered: Option<int>, diverted: Option<int>)
    requires delivered.Some? ==> 0 <= delivered.value
    requires diverted.Some? ==> 0 <= diverted.value
    ensures var p := DiversionPercentage(applicable, delivered, diverted);
            && (p == NotApplicable <==> !applicable)
            && (p == Collecting <==> applicable && (delivered.None? || diverted.None?))
            && (p == NoEligibleClicks <==> applicable && delivered == Some(0) && diverted == Some(0))
            && (p.CompletePercentage? ==>
                  delivered.Some? && diverted.Some? && IsNearest(p.hundredths, delivered.value, diverted.value))
  {
    if applicable && delivered.Some? && diverted.Some? && 0 < delivered.value + diverted.value {
      PercentageIsNearest(delivered.value, diverted.value);
    }
  }

  /**
   The diversion percentage is shown exactly for a domain with delivered counts, both families and at least
   one click in them; otherwise the first thing that is missing is named.
   */
  lemma PercentageIsShownExactly(input: ReportInput, rows: multiset<Aggregate>, report: Report)
    requires IsReportable(input, rows) && IsReportOf(input, rows, report)
    ensures report.percentage == NotApplicable <==> !input.deliveredApplicable
    ensures report.percentage == Collecting <==>
              input.deliveredApplicable && !(report.deliveredAvailable && report.diversionAvailable)
    ensures report.percentage == NoEligibleClicks <==>
              && input.deliveredApplicable
              && report.totals.delivered == Some(0) && report.totals.diverted == Some(0)
    ensures report.percentage.CompletePercentage? ==>
              && report.totals.delivered.Some? && report.totals.diverted.Some?
              && IsNearest(
                   report.percentage.hundredths, report.totals.delivered.value, report.totals.diverted.value)
  {
    hide FamiliesOf, IsListing, DoRowsFit, AreTotals, DiversionPercentage, IsNearest;
    TotalsFollowFamilies(input, rows, report);
    PercentageStates(input.deliveredApplicable, report.totals.delivered, report.totals.diverted);
  }
}
