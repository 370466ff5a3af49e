/**
 When a reporting range counts as complete. The evaluation fills maps from two row lists in whatever
 order they come; the specification looks at the rows as multisets, so the order cannot matter.
 */
module DeliveredCompleteness {
  import opened Outcomes
  import opened MapSums
  import opened DeliveredObserver

  const MAX_WINDOW_BUCKETS := 1008
  const MAX_DATE_MS := 8_640_000_000_000_000

  datatype Status = Complete | CompleteZero | Incomplete
  datatype Provenance = RedisNonempty | VerifiedZero | HealthIncomplete

  /** A 64-digit digest text: of a bucket's source, of something else, or not a digest at all. */
  datatype ShaText =
    | OfSource(domainId: int, bucketStart: int, runId: ShaText, observed: int, countries: map<string, int>)
    | OfOther(text: string)
    | Malformed

  datatype StateRow = StateRow(
    domainId: int,
    bucketStartMs: int,
    status: Status,
    deliveredTotal: Option<int>,
    provenance: Provenance,
    sourceSha256: ShaText,
    redisRunIdSha256: Option<ShaText>)

  /** A row without a delivered count belongs to another family of counters. */
  datatype HistoryRow = HistoryRow(domainId: int, bucketStartMs: int, country: string, delivered: Option<int>)

  datatype Reason =
    | InvalidRows
    | MissingState
    | StateIncomplete
    | StateNotPositive
    | InvalidProvenance
    | InvalidSource
    | MissingHistory
    | InvalidHistory
    | HistoryMismatch

  datatype Evaluation = Evaluation(
    expectedBuckets: int, completeBuckets: int, deliveredTotal: Option<int>, reason: Option<Reason>)

  datatype RangeError = RangeError

  // ---------------------------------------------------------------------------------------------
  // Shapes
  // ---------------------------------------------------------------------------------------------

  /** safeEpoch: whole seconds of a valid date; outside the range of dates the time is not a number. */
  function SafeEpoch(ms: int): Option<int> {
    if -MAX_DATE_MS <= ms <= MAX_DATE_MS && ms % 1000 == 0 then Some(EpochOf(ms)) else None
  }

  /** The seconds of a whole-second date. */
  function EpochOf(ms: int): int {
    ms / 1000
  }

  predicate IsAligned(ms: int) {
    SafeEpoch(ms).Some? && SafeEpoch(ms).value % BUCKET_SECONDS == 0
  }

  predicate IsCounter(value: int) {
    0 < value <= MAX_COUNTER
  }

  predicate IsShaText(text: Option<ShaText>) {
    text.Some? && !text.value.Malformed?
  }

  /** One aligned range of one domain. */
  datatype Range = Range(domainId: int, startEpoch: int, endEpoch: int) {
    predicate Covers(domainId: int, bucketStartMs: int) {
      && domainId == this.domainId
      && SafeEpoch(bucketStartMs).Some?
      && startEpoch <= SafeEpoch(bucketStartMs).value < endEpoch
      && SafeEpoch(bucketStartMs).value % BUCKET_SECONDS == 0
    }

    function Size(): int {
      (endEpoch - startEpoch) / BUCKET_SECONDS
    }

    function Bucket(i: int): int {
      startEpoch + i * BUCKET_SECONDS
    }
  }

  function RangeOf(domainId: int, startMs: int, endMs: int): Result<Range, RangeError> {
    if !IsAligned(startMs) || !IsAligned(endMs) then Err(RangeError)
    else
      var range := Range(domainId, EpochOf(startMs), EpochOf(endMs));
      if 1 <= range.Size() <= MAX_WINDOW_BUCKETS then Ok(range) else Err(RangeError)
  }

  // ---------------------------------------------------------------------------------------------
  // The rows, in no order
  // ---------------------------------------------------------------------------------------------

  predicate IsGoodState(range: Range, row: StateRow) {
    range.Covers(row.domainId, row.bucketStartMs)
  }

  predicate IsGoodHistory(range: Range, row: HistoryRow) {
    && range.Covers(row.domainId, row.bucketStartMs)
    && IsCountry(row.country)
    && (row.delivered.Some? ==> 0 <= row.delivered.value)
  }

  predicate IsSameCell(r: HistoryRow, q: HistoryRow) {
    EpochOf(r.bucketStartMs) == EpochOf(q.bucketStartMs) && r.country == q.country
  }

  predicate AreStatesUsable(range: Range, rows: multiset<StateRow>) {
    && (forall r | r in rows :: IsGoodState(range, r) && rows[r] == 1)
    && (forall r, q | r in rows && q in rows && EpochOf(r.bucketStartMs) == EpochOf(q.bucketStartMs) :: r == q)
  }

  predicate IsHistoryUsable(range: Range, rows: multiset<HistoryRow>) {
    && (forall r | r in rows :: IsGoodHistory(range, r) && rows[r] == 1)
    && (forall r, q | r in rows && q in rows && IsSameCell(r, q) :: r == q)
  }

  function StateAt(range: Range, rows: multiset<StateRow>, epoch: int): Option<StateRow>
    requires AreStatesUsable(range, rows)
  {
    if exists r :: r in rows && EpochOf(r.bucketStartMs) == epoch
    then
      var r :| r in rows && EpochOf(r.bucketStartMs) == epoch;
      Some(r)
    else None
  }

  /** The history cells of one bucket, by country. */
  function CellsAt(range: Range, rows: multiset<HistoryRow>, epoch: int): map<string, Option<int>>
    requires IsHistoryUsable(range, rows)
  {
    map r | r in rows && EpochOf(r.bucketStartMs) == epoch :: r.country := r.delivered
  }

  function Counted(cells: map<string, Option<int>>): map<string, int> {
    map c | c in cells && cells[c].Some? :: cells[c].value
  }

  // ---------------------------------------------------------------------------------------------
  // The verdict on one bucket, and on the range
  // ---------------------------------------------------------------------------------------------

  function StateReason(state: Option<StateRow>): Option<Reason> {
    if state.None? then Some(MissingState)
    else if !state.value.status.Complete? then Some(StateIncomplete)
    else if state.value.deliveredTotal.None? || !IsCounter(state.value.deliveredTotal.value) then
      Some(StateNotPositive)
    else if !state.value.provenance.RedisNonempty? then Some(InvalidProvenance)
    else if state.value.sourceSha256.Malformed? || !IsShaText(state.value.redisRunIdSha256) then
      Some(InvalidSource)
    else None
  }

  ghost function HistoryReason(cells: map<string, Option<int>>): Option<Reason> {
    if cells.Keys == {} then Some(MissingHistory)
    else if !IsSummable(Counted(cells)) then Some(InvalidHistory)
    else if Counted(cells).Keys == {} then Some(MissingHistory)
    else None
  }

  ghost predicate IsSummable(counts: map<string, int>) {
    (forall c | c in counts :: IsCounter(counts[c])) && Sum(counts) <= MAX_COUNTER
  }

  ghost function BucketReason(state: Option<StateRow>, cells: map<string, Option<int>>): Option<Reason> {
    if StateReason(state).Some? then StateReason(state)
    else if HistoryReason(cells).Some? then HistoryReason(cells)
    else if Sum(Counted(cells)) != state.value.deliveredTotal.value then Some(HistoryMismatch)
    else None
  }

  ghost function Scan(range: Range, states: multiset<StateRow>, history: multiset<HistoryRow>, i: int, total: int)
    : Evaluation
    requires AreStatesUsable(range, states) && IsHistoryUsable(range, history)
    decreases range.Size() - i
  {
    if range.Size() <= i then Evaluation(range.Size(), i, Some(total), None)
    else
      var epoch := range.Bucket(i);
      var state := StateAt(range, states, epoch);
      var reason := BucketReason(state, CellsAt(range, history, epoch));
      if reason.Some? then Evaluation(range.Size(), i, None, reason)
      else if MAX_COUNTER < total + state.value.deliveredTotal.value then
        Evaluation(range.Size(), i, None, Some(StateNotPositive))
      else Scan(range, states, history, i + 1, total + state.value.deliveredTotal.value)
  }

  ghost function Evaluate(range: Range, states: multiset<StateRow>, history: multiset<HistoryRow>): Evaluation {
    if !AreStatesUsable(range, states) || !IsHistoryUsable(range, history)
    then Evaluation(range.Size(), 0, None, Some(InvalidRows))
    else Scan(range, states, history, 0, 0)
  }

  // ---------------------------------------------------------------------------------------------
  // The loops
  // ---------------------------------------------------------------------------------------------

  ghost predicate HoldsStates(range: Range, rows: multiset<StateRow>, found: map<int, StateRow>) {
    && AreStatesUsable(range, rows)
    && forall e :: StateAt(range, rows, e) == if e in found then Some(found[e]) else None
  }

  lemma StateJoins(range: Range, rows: multiset<StateRow>, found: map<int, StateRow>, row: StateRow)
    requires HoldsStates(range, rows, found)
    ensures var epoch := EpochOf(row.bucketStartMs);
            var fits := IsGoodState(range, row) && epoch !in found;
            && (fits ==> HoldsStates(range, rows + multiset{row}, found[epoch := row]))
            && (!fits ==> !AreStatesUsable(range, rows + multiset{row}))
  {
    hide IsGoodState, EpochOf;
    var more := rows + multiset{row};
    var epoch := EpochOf(row.bucketStartMs);
    assert row in more;
    if IsGoodState(range, row) && epoch in found {
      var other := found[epoch];
      assert StateAt(range, rows, epoch) == Some(other);
      assert other in more && more[row] >= rows[row] + 1;
    } else if IsGoodState(range, row) {
      assert StateAt(range, rows, epoch) == None;
      StatesGrow(range, rows, row);
    }
  }

  /** A row for a bucket that has none yet. */
  lemma StatesGrow(range: Range, rows: multiset<StateRow>, row: StateRow)
    requires AreStatesUsable(range, rows) && IsGoodState(range, row)
    requires StateAt(range, rows, EpochOf(row.bucketStartMs)) == None
    ensures AreStatesUsable(range, rows + multiset{row})
    ensures forall e :: StateAt(range, rows + multiset{row}, e)
                        == if e == EpochOf(row.bucketStartMs) then Some(row) else StateAt(range, rows, e)
  {
    hide IsGoodState, EpochOf;
    var more := rows + multiset{row};
    assert row !in rows;
    assert forall r :: r in more <==> r in rows || r == row;
    forall r | r in more
      ensures IsGoodState(range, r) && more[r] == 1
    {
    }
    forall e
      ensures StateAt(range, more, e)
              == if e == EpochOf(row.bucketStartMs) then Some(row) else StateAt(range, rows, e)
    {
      if e == EpochOf(row.bucketStartMs) {
        assert row in more && EpochOf(row.bucketStartMs) == e;
      }
    }
  }

  lemma UnusableStays(rows: multiset<StateRow>, row: StateRow, range: Range)
    requires !AreStatesUsable(range, rows)
    ensures !AreStatesUsable(range, rows + multiset{row})
  {
    if AreStatesUsable(range, rows + multiset{row}) {
      forall r | r in rows
        ensures IsGoodState(range, r) && rows[r] == 1
      {
        assert r in rows + multiset{row};
      }
    }
  }

  lemma Prefixes<T>(s: seq<T>, i: nat)
    requires i < |s|
    ensures multiset(s[..i + 1]) == multiset(s[..i]) + multiset{s[i]}
    ensures multiset(s[..|s|]) == multiset(s)
  {
    assert s[..i + 1] == s[..i] + [s[i]];
    assert s[..|s|] == s;
  }

  lemma NoStates(range: Range)
    ensures AreStatesUsable(range, multiset{}) && HoldsStates(range, multiset{}, map[])
  {
  }

  method CollectStates(range: Range, rows: seq<StateRow>) returns (invalid: bool, states: map<int, StateRow>)
    ensures invalid <==> !AreStatesUsable(range, multiset(rows))
    ensures !invalid ==> HoldsStates(range, multiset(rows), states)
  {
    hide IsGoodState, EpochOf;
    invalid, states := false, map[];
    NoStates(range);
    for i := 0 to |rows|
      invariant invalid <==> !AreStatesUsable(range, multiset(rows[..i]))
      invariant !invalid ==> HoldsStates(range, multiset(rows[..i]), states)
    {
      var row := rows[i];
      Prefixes(rows, i);
      if invalid {
        UnusableStays(multiset(rows[..i]), row, range);
      } else {
        StateJoins(range, multiset(rows[..i]), states, row);
      }
      if !IsGoodState(range, row) || EpochOf(row.bucketStartMs) in states {
        invalid := true;
      } else {
        states := states[EpochOf(row.bucketStartMs) := row];
      }
    }
    assert rows[..|rows|] == rows;
  }

  function CellsIn(found: map<int, map<string, Option<int>>>, epoch: int): map<string, Option<int>> {
    if epoch in found then found[epoch] else map[]
  }

  ghost predicate HoldsHistory(
    range: Range, rows: multiset<HistoryRow>, found: map<int, map<string, Option<int>>>)
  {
    && IsHistoryUsable(range, rows)
    && (forall e | e in found :: found[e].Keys != {})
    && (forall e :: CellsAt(range, rows, e) == CellsIn(found, e))
  }

  /** The cells of a usable list, row by row. */
  lemma CellOfRow(range: Range, rows: multiset<HistoryRow>, epoch: int, country: string)
    requires IsHistoryUsable(range, rows)
    ensures country in CellsAt(range, rows, epoch) <==>
            exists r :: r in rows && EpochOf(r.bucketStartMs) == epoch && r.country == country
    ensures forall r | r in rows && EpochOf(r.bucketStartMs) == epoch && r.country == country ::
              country in CellsAt(range, rows, epoch) && CellsAt(range, rows, epoch)[country] == r.delivered
  {
    hide IsGoodHistory, EpochOf;
  }

  predicate IsNewCell(range: Range, rows: multiset<HistoryRow>, row: HistoryRow)
    requires IsHistoryUsable(range, rows)
  {
    IsGoodHistory(range, row) && row.country !in CellsAt(range, rows, EpochOf(row.bucketStartMs))
  }

  lemma NewCellIsUsable(range: Range, rows: multiset<HistoryRow>, row: HistoryRow)
    requires IsHistoryUsable(range, rows)
    ensures IsNewCell(range, rows, row) <==> IsHistoryUsable(range, rows + multiset{row})
  {
    hide IsGoodHistory, EpochOf, CellsAt;
    var more := rows + multiset{row};
    assert row in more;
    CellOfRow(range, rows, EpochOf(row.bucketStartMs), row.country);
    if IsNewCell(range, rows, row) {
      assert row !in rows;
      forall r | r in more
        ensures IsGoodHistory(range, r) && more[r] == 1
      {
        assert r in rows || r == row;
      }
    } else if IsGoodHistory(range, row) {
      var other :| other in rows && EpochOf(other.bucketStartMs) == EpochOf(row.bucketStartMs)
                   && other.country == row.country;
      assert other in more && more[row] >= rows[row] + 1 && IsSameCell(other, row);
    }
  }

  lemma CellsGrow(range: Range, rows: multiset<HistoryRow>, row: HistoryRow, epoch: int)
    requires IsHistoryUsable(range, rows) && IsHistoryUsable(range, rows + multiset{row})
    ensures CellsAt(range, rows + multiset{row}, epoch)
            == if epoch == EpochOf(row.bucketStartMs)
               then CellsAt(range, rows, epoch)[row.country := row.delivered]
               else CellsAt(range, rows, epoch)
  {
    hide IsGoodHistory, EpochOf, CellsAt, IsHistoryUsable;
    var more := rows + multiset{row};
    var after := CellsAt(range, more, epoch);
    var expected := if epoch == EpochOf(row.bucketStartMs)
      then CellsAt(range, rows, epoch)[row.country := row.delivered]
      else CellsAt(range, rows, epoch);
    forall c
      ensures c in after <==> c in expected
      ensures c in after && c in expected ==> after[c] == expected[c]
    {
      CellOfRow(range, rows, epoch, c);
      CellOfRow(range, more, epoch, c);
      assert row in more && forall r | r in more :: r in rows || r == row;
      assert forall r | r in rows :: r in more;
    }
  }

  lemma CellJoins(
    range: Range, rows: multiset<HistoryRow>, found: map<int, map<string, Option<int>>>, row: HistoryRow)
    requires HoldsHistory(range, rows, found)
    ensures var epoch := EpochOf(row.bucketStartMs);
            var fits := IsGoodHistory(range, row) && row.country !in CellsIn(found, epoch);
            var next := found[epoch := CellsIn(found, epoch)[row.country := row.delivered]];
            && (fits ==> HoldsHistory(range, rows + multiset{row}, next))
            && (!fits ==> !IsHistoryUsable(range, rows + multiset{row}))
  {
    hide IsGoodHistory, EpochOf, CellsAt, IsHistoryUsable;
    NewCellIsUsable(range, rows, row);
    var epoch := EpochOf(row.bucketStartMs);
    var next := found[epoch := CellsIn(found, epoch)[row.country := row.delivered]];
    assert CellsAt(range, rows, epoch) == CellsIn(found, epoch);
    if IsNewCell(range, rows, row) {
      forall e
        ensures CellsAt(range, rows + multiset{row}, e) == CellsIn(next, e)
      {
        CellsGrow(range, rows, row, e);
        assert CellsAt(range, rows, e) == CellsIn(found, e);
      }
    }
  }

  lemma UnusableHistoryStays(rows: multiset<HistoryRow>, row: HistoryRow, range: Range)
    requires !IsHistoryUsable(range, rows)
    ensures !IsHistoryUsable(range, rows + multiset{row})
  {
    if IsHistoryUsable(range, rows + multiset{row}) {
      forall r | r in rows
        ensures IsGoodHistory(range, r) && rows[r] == 1
      {
        assert r in rows + multiset{row};
      }
    }
  }

  method CollectHistory(range: Range, rows: seq<HistoryRow>)
    returns (invalid: bool, history: map<int, map<string, Option<int>>>)
    ensures invalid <==> !IsHistoryUsable(range, multiset(rows))
    ensures !invalid ==> HoldsHistory(range, multiset(rows), history)
  {
    hide IsGoodHistory, EpochOf;
    invalid, history := false, map[];
    NoHistory(range);
    for i := 0 to |rows|
      invariant invalid <==> !IsHistoryUsable(range, multiset(rows[..i]))
      invariant !invalid ==> HoldsHistory(range, multiset(rows[..i]), history)
    {
      var row := rows[i];
      Prefixes(rows, i);
      if invalid {
        UnusableHistoryStays(multiset(rows[..i]), row, range);
      } else {
        CellJoins(range, multiset(rows[..i]), history, row);
      }
      var epoch := EpochOf(row.bucketStartMs);
      var bucket := CellsIn(history, epoch);
      if !IsGoodHistory(range, row) || row.country in bucket {
        invalid := true;
      } else {
        history := history[epoch := bucket[row.country := row.delivered]];
      }
    }
    assert rows[..|rows|] == rows;
  }

  lemma NoHistory(range: Range)
    ensures IsHistoryUsable(range, multiset{}) && HoldsHistory(range, multiset{}, map[])
  {
  }

  /** What has been counted while `rest` has not been visited. */
  function CountedOutside(cells: map<string, Option<int>>, rest: set<string>): map<string, int> {
    map c | c in cells && cells[c].Some? && c !in rest :: cells[c].value
  }

  /** The values of a Map come in insertion order; the sum does not depend on it. */
  method SumBucket(cells: map<string, Option<int>>) returns (r: Result<(int, int), Reason>)
    ensures r.Ok? <==> IsSummable(Counted(cells))
    ensures r.Ok? ==> r.value == (Sum(Counted(cells)), |Counted(cells)|)
    ensures r.Err? ==> r.error == InvalidHistory
  {
    hide Sum, Counted, CountedOutside, IsSummable;
    var total, countries := 0, 0;
    var rest := cells.Keys;
    CountingEnds(cells);
    while rest != {}
      invariant rest <= cells.Keys && IsSummable(CountedOutside(cells, rest))
      invariant total == Sum(CountedOutside(cells, rest)) && countries == |CountedOutside(cells, rest)|
    {
      var c :| c in rest;
      CountingGoesOn(cells, rest, c);
      rest := rest - {c};
      if cells[c].Some? {
        var delivered := cells[c].value;
        if !IsCounter(delivered) || MAX_COUNTER - delivered < total {
          NoPartIsTooMuch(cells, rest);
          return Err(InvalidHistory);
        }
        countries := countries + 1;
        total := total + delivered;
      }
    }
    return Ok((total, countries));
  }

  lemma CountingEnds(cells: map<string, Option<int>>)
    ensures CountedOutside(cells, cells.Keys) == map[] && IsSummable(map[]) && Sum<string>(map[]) == 0
    ensures CountedOutside(cells, {}) == Counted(cells)
  {
  }

  lemma OneMoreIsSummable(counts: map<string, int>, c: string, v: int)
    requires IsSummable(counts) && c !in counts
    ensures IsSummable(counts[c := v]) <==> IsCounter(v) && Sum(counts) + v <= MAX_COUNTER
  {
    SumWith(counts, c, v);
    assert counts[c := v][c] == v;
  }

  lemma CountingGoesOn(cells: map<string, Option<int>>, rest: set<string>, c: string)
    requires c in rest && rest <= cells.Keys && IsSummable(CountedOutside(cells, rest))
    ensures var before, after := CountedOutside(cells, rest), CountedOutside(cells, rest - {c});
            if cells[c].Some? then
              && Sum(after) == Sum(before) + cells[c].value && |after| == |before| + 1
              && (IsSummable(after) <==> IsCounter(cells[c].value) && Sum(before) + cells[c].value <= MAX_COUNTER)
            else after == before
  {
    var before, after := CountedOutside(cells, rest), CountedOutside(cells, rest - {c});
    if cells[c].Some? {
      assert after == before[c := cells[c].value];
      assert after.Keys == before.Keys + {c};
      hide CountedOutside, IsSummable;
      SumWith(before, c, cells[c].value);
      OneMoreIsSummable(before, c, cells[c].value);
    } else {
      assert after == before;
    }
  }

  lemma NoPartIsTooMuch(cells: map<string, Option<int>>, rest: set<string>)
    requires !IsSummable(CountedOutside(cells, rest))
    ensures !IsSummable(Counted(cells))
  {
    hide IsSummable;
    PartIsNoMore(CountedOutside(cells, rest), Counted(cells));
  }

  /** A part of summable counts is summable. */
  lemma PartIsNoMore(part: map<string, int>, counts: map<string, int>)
    requires forall c | c in part :: c in counts && counts[c] == part[c]
    ensures IsSummable(counts) ==> IsSummable(part)
  {
    var rest := counts - part.Keys;
    assert counts == part + rest;
    SumOfUnion(part, rest);
    if IsSummable(counts) {
      SumOfPositives(rest);
    }
  }

  // ---------------------------------------------------------------------------------------------
  // The evaluation
  // ---------------------------------------------------------------------------------------------

  predicate IsGridded(range: Range) {
    range.startEpoch % BUCKET_SECONDS == 0 && range.endEpoch == range.Bucket(range.Size())
  }

  lemma RangesAreGridded(domainId: int, startMs: int, endMs: int)
    requires RangeOf(domainId, startMs, endMs).Ok?
    ensures var range := RangeOf(domainId, startMs, endMs).value; IsGridded(range) && 1 <= range.Size()
  {
  }

  function GridOf(range: Range, n: nat): set<int> {
    set i | 0 <= i < n :: range.Bucket(i)
  }

  lemma {:induction false} GridHasSize(range: Range, n: nat)
    ensures |GridOf(range, n)| == n
  {
    if n > 0 {
      GridHasSize(range, n - 1);
      assert GridOf(range, n) == GridOf(range, n - 1) + {range.Bucket(n - 1)};
      assert range.Bucket(n - 1) !in GridOf(range, n - 1);
    }
  }

  lemma CoveredIsOnGrid(range: Range, bucketStartMs: int)
    requires IsGridded(range) && 0 <= range.Size() && range.Covers(range.domainId, bucketStartMs)
    ensures EpochOf(bucketStartMs) in GridOf(range, range.Size())
  {
    var e := EpochOf(bucketStartMs);
    var i := (e - range.startEpoch) / BUCKET_SECONDS;
    assert (e - range.startEpoch) % BUCKET_SECONDS == 0;
    assert e == range.Bucket(i);
  }

  /** Why the size test at the end of the source's loop never fires. */
  lemma NoStateIsLeftOver(range: Range, rows: multiset<StateRow>, found: map<int, StateRow>)
    requires IsGridded(range) && 0 <= range.Size() && HoldsStates(range, rows, found)
    requires forall i | 0 <= i < range.Size() :: range.Bucket(i) in found
    ensures |found| == range.Size()
  {
    forall e | e in found
      ensures e in GridOf(range, range.Size())
    {
      assert StateAt(range, rows, e) == Some(found[e]);
      CoveredIsOnGrid(range, found[e].bucketStartMs);
    }
    assert found.Keys == GridOf(range, range.Size());
    GridHasSize(range, range.Size());
  }

  /** One turn of the source's loop, up to the running total. */
  method JudgeBucket(state: Option<StateRow>, cells: map<string, Option<int>>) returns (reason: Option<Reason>)
    ensures reason == BucketReason(state, cells)
  {
    reason := StateReason(state);
    if reason.Some? {
      return;
    }
    if cells == map[] {
      return Some(MissingHistory);
    }
    var counted := SumBucket(cells);
    if counted.Err? {
      return Some(counted.error);
    }
    if counted.value.1 == 0 {
      return Some(MissingHistory);
    }
    if counted.value.0 != state.value.deliveredTotal.value {
      return Some(HistoryMismatch);
    }
  }

  lemma ScanGoesOn(range: Range, s: multiset<StateRow>, h: multiset<HistoryRow>, i: int, total: int)
    requires AreStatesUsable(range, s) && IsHistoryUsable(range, h) && i < range.Size()
    ensures var state := StateAt(range, s, range.Bucket(i));
            var reason := BucketReason(state, CellsAt(range, h, range.Bucket(i)));
            Scan(range, s, h, i, total)
            == if reason.Some? then Evaluation(range.Size(), i, None, reason)
               else if MAX_COUNTER < total + state.value.deliveredTotal.value
               then Evaluation(range.Size(), i, None, Some(StateNotPositive))
               else Scan(range, s, h, i + 1, total + state.value.deliveredTotal.value)
  {
    hide AreStatesUsable, IsHistoryUsable, CellsAt, StateAt, StateReason, HistoryReason, Counted;
  }

  method EvaluateDeliveredCountryRange(
    domainId: int, startMs: int, endMs: int, stateRows: seq<StateRow>, historyRows: seq<HistoryRow>)
    returns (r: Result<Evaluation, RangeError>)
    ensures var range := RangeOf(domainId, startMs, endMs);
            if range.Err? then r == Err(range.error)
            else r == Ok(Evaluate(range.value, multiset(stateRows), multiset(historyRows)))
  {
    var bounds := RangeOf(domainId, startMs, endMs);
    if bounds.Err? {
      return Err(bounds.error);
    }
    RangesAreGridded(domainId, startMs, endMs);
    var evaluation := EvaluateRange(bounds.value, stateRows, historyRows);
    return Ok(evaluation);
  }

  method EvaluateRange(range: Range, stateRows: seq<StateRow>, historyRows: seq<HistoryRow>)
    returns (evaluation: Evaluation)
    requires IsGridded(range) && 1 <= range.Size()
    ensures evaluation == Evaluate(range, multiset(stateRows), multiset(historyRows))
  {
    hide AreStatesUsable, IsHistoryUsable, CellsAt, IsGridded, Range.Bucket, Range.Size, BucketReason, StateAt;
    var expected := range.Size();
    var badStates, states := CollectStates(range, stateRows);
    var badHistory, history := CollectHistory(range, historyRows);
    if badStates || badHistory {
      return Evaluation(expected, 0, None, Some(InvalidRows));
    }
    ghost var s, h := multiset(stateRows), multiset(historyRows);
    var deliveredTotal, completeBuckets := 0, 0;
    while completeBuckets < expected
      invariant 0 <= completeBuckets <= expected
      invariant Evaluate(range, s, h) == Scan(range, s, h, completeBuckets, deliveredTotal)
      invariant forall i | 0 <= i < completeBuckets :: range.Bucket(i) in states
    {
      var epoch := range.Bucket(completeBuckets);
      var state := if epoch in states then Some(states[epoch]) else None;
      assert state == StateAt(range, s, epoch) && CellsAt(range, h, epoch) == CellsIn(history, epoch);
      ScanGoesOn(range, s, h, completeBuckets, deliveredTotal);
      var reason := JudgeBucket(state, CellsIn(history, epoch));
      if reason.Some? {
        return Evaluation(expected, completeBuckets, None, reason);
      }
      SoundBucketHasState(state, CellsIn(history, epoch));
      var stateTotal := state.value.deliveredTotal.value;
      if MAX_COUNTER - stateTotal < deliveredTotal {
        return Evaluation(expected, completeBuckets, None, Some(StateNotPositive));
      }
      deliveredTotal := deliveredTotal + stateTotal;
      completeBuckets := completeBuckets + 1;
    }
    NoStateIsLeftOver(range, s, states);
    if |states| != expected {
      assert false;
      return Evaluation(expected, completeBuckets, None, Some(InvalidRows));
    }
    return Evaluation(expected, completeBuckets, Some(deliveredTotal), None);
  }

  lemma SoundBucketHasState(state: Option<StateRow>, cells: map<string, Option<int>>)
    requires BucketReason(state, cells).None?
    ensures state.Some? && state.value.deliveredTotal.Some?
  {
  }
}
