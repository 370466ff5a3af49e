/** The publisher and the reader agree: a range that reconciles unchanged bucket by bucket is complete. */
module DeliveredAgreement {
  import opened Outcomes
  import opened MapSums
  import opened DeliveredObserver
  import opened DeliveredCompleteness
  import opened DeliveredTotals
  import opened DeliveredPublisher

  function Flatten(histories: seq<seq<HistoryRow>>): seq<HistoryRow> {
    if histories == [] then [] else Flatten(histories[..|histories| - 1]) + histories[|histories| - 1]
  }

  function ObservedSum(snapshots: seq<Snapshot>): int {
    if snapshots == [] then 0
    else ObservedSum(snapshots[..|snapshots| - 1]) + snapshots[|snapshots| - 1].observed
  }

  /** The i-th source bucket is the range's i-th, and its reconciliation says `Unchanged`. */
  ghost predicate IsUnchanged(range: Range, i: int, s: Snapshot, state: StateRow, rows: seq<HistoryRow>) {
    && s.domainId == range.domainId
    && SafeEpoch(s.bucketStartMs) == Some(range.Bucket(i))
    && IsPublished(s, Some(state), rows)
  }

  ghost predicate AllUnchanged(
    range: Range, snapshots: seq<Snapshot>, states: seq<StateRow>, histories: seq<seq<HistoryRow>>)
  {
    && |snapshots| == |states| == |histories| == range.Size()
    && forall i | 0 <= i < range.Size() :: IsUnchanged(range, i, snapshots[i], states[i], histories[i])
  }

  // ---------------------------------------------------------------------------------------------
  // States
  // ---------------------------------------------------------------------------------------------

  lemma {:induction false} DistinctCounts<T>(s: seq<T>)
    requires forall i, j | 0 <= i < j < |s| :: s[i] != s[j]
    ensures forall x | x in multiset(s) :: multiset(s)[x] == 1
  {
    if s != [] {
      var front, last := s[..|s| - 1], s[|s| - 1];
      DistinctCounts(front);
      assert s == front + [last];
      assert last !in front;
    }
  }

  lemma BucketIsCovered(range: Range, i: int, ms: int)
    requires IsGridded(range) && 0 <= i < range.Size() && SafeEpoch(ms) == Some(range.Bucket(i))
    ensures range.Covers(range.domainId, ms) && EpochOf(ms) == range.Bucket(i)
  {
  }

  lemma UnchangedState(range: Range, i: int, s: Snapshot, state: StateRow, rows: seq<HistoryRow>)
    requires IsGridded(range) && 0 <= i < range.Size() && IsUnchanged(range, i, s, state, rows)
    ensures IsGoodState(range, state) && EpochOf(state.bucketStartMs) == range.Bucket(i)
    ensures StateReason(Some(state)).None? && state.deliveredTotal == Some(s.observed)
  {
    BucketIsCovered(range, i, state.bucketStartMs);
    hide SafeEpoch, Range.Covers;
  }

  lemma StatesOfUnchanged(
    range: Range, snapshots: seq<Snapshot>, states: seq<StateRow>, histories: seq<seq<HistoryRow>>)
    requires IsGridded(range) && AllUnchanged(range, snapshots, states, histories)
    ensures AreStatesUsable(range, multiset(states))
    ensures forall i | 0 <= i < range.Size() :: StateAt(range, multiset(states), range.Bucket(i)) == Some(states[i])
  {
    hide IsUnchanged, IsGridded, IsGoodState, EpochOf, Range.Size;
    forall i | 0 <= i < range.Size()
      ensures IsGoodState(range, states[i]) && EpochOf(states[i].bucketStartMs) == range.Bucket(i)
    {
      UnchangedState(range, i, snapshots[i], states[i], histories[i]);
    }
    forall i, j | 0 <= i < j < |states|
      ensures states[i] != states[j]
    {
      assert range.Bucket(i) != range.Bucket(j);
    }
    DistinctCounts(states);
    assert AreStatesUsable(range, multiset(states));
    forall i | 0 <= i < range.Size()
      ensures StateAt(range, multiset(states), range.Bucket(i)) == Some(states[i])
    {
      assert states[i] in multiset(states);
    }
  }

  // ---------------------------------------------------------------------------------------------
  // History
  // ---------------------------------------------------------------------------------------------

  predicate HasNoSameCells(rows: seq<HistoryRow>) {
    forall i, j | 0 <= i < j < |rows| :: !IsSameCell(rows[i], rows[j])
  }

  /** Rows of one bucket. */
  predicate IsBucketList(range: Range, i: int, rows: seq<HistoryRow>) {
    && HasNoSameCells(rows)
    && forall k | 0 <= k < |rows| ::
         IsGoodHistory(range, rows[k]) && EpochOf(rows[k].bucketStartMs) == range.Bucket(i)
  }

  lemma UnchangedHistory(range: Range, i: int, s: Snapshot, state: StateRow, rows: seq<HistoryRow>)
    requires IsGridded(range) && 0 <= i < range.Size() && IsUnchanged(range, i, s, state, rows)
    ensures IsBucketList(range, i, rows)
  {
    hide IsCountry, Range.Size;
    forall k | 0 <= k < |rows|
      ensures IsGoodHistory(range, rows[k]) && EpochOf(rows[k].bucketStartMs) == range.Bucket(i)
    {
      assert IsRowOf(s, rows[k]);
      BucketIsCovered(range, i, rows[k].bucketStartMs);
    }
  }

  ghost predicate AreBucketLists(range: Range, histories: seq<seq<HistoryRow>>) {
    forall i | 0 <= i < |histories| :: IsBucketList(range, i, histories[i])
  }

  /** The concatenated lists: every row is one of its own bucket's, and no two are the same cell. */
  lemma {:induction false} FlattenedLists(range: Range, histories: seq<seq<HistoryRow>>)
    requires AreBucketLists(range, histories)
    ensures HasNoSameCells(Flatten(histories))
    ensures forall r | r in Flatten(histories) :: IsGoodHistory(range, r)
    ensures forall r | r in Flatten(histories) ::
              exists i :: 0 <= i < |histories| && r in histories[i] && EpochOf(r.bucketStartMs) == range.Bucket(i)
    ensures forall i, r | 0 <= i < |histories| && r in histories[i] :: r in Flatten(histories)
  {
    hide IsGoodHistory, EpochOf;
    if histories != [] {
      var n := |histories| - 1;
      var front, last := histories[..n], histories[n];
      FlattenedLists(range, front);
      var rows, all := Flatten(front), Flatten(histories);
      forall i, j | 0 <= i < j < |all|
        ensures !IsSameCell(all[i], all[j])
      {
        if i < |rows| <= j {
          assert rows[i] in rows;
          var b :| 0 <= b < n && rows[i] in front[b] && EpochOf(rows[i].bucketStartMs) == range.Bucket(b);
          assert range.Bucket(b) != range.Bucket(n);
        } else if |rows| <= i {
          assert all[i] == last[i - |rows|] && all[j] == last[j - |rows|];
        }
      }
    }
  }

  lemma {:induction false} ListIsUsable(range: Range, rows: seq<HistoryRow>)
    requires HasNoSameCells(rows) && forall r | r in rows :: IsGoodHistory(range, r)
    ensures IsHistoryUsable(range, multiset(rows))
  {
    hide IsGoodHistory, EpochOf, CellsAt;
    if rows != [] {
      var n := |rows| - 1;
      var front, row := rows[..n], rows[n];
      ListIsUsable(range, front);
      Prefixes(rows, n);
      CellOfRow(range, multiset(front), EpochOf(row.bucketStartMs), row.country);
      forall r | r in multiset(front)
        ensures !IsSameCell(r, row)
      {
        var k :| 0 <= k < n && front[k] == r;
        assert !IsSameCell(rows[k], rows[n]);
      }
      NewCellIsUsable(range, multiset(front), row);
      assert multiset(rows) == multiset(front) + multiset{row};
    }
  }

  /** The rows of the i-th bucket are those of the i-th list. */
  lemma RowsOfBucket(range: Range, histories: seq<seq<HistoryRow>>, i: int, r: HistoryRow)
    requires AreBucketLists(range, histories) && 0 <= i < |histories|
    ensures r in Flatten(histories) && EpochOf(r.bucketStartMs) == range.Bucket(i) <==> r in histories[i]
  {
    hide IsGoodHistory, EpochOf;
    FlattenedLists(range, histories);
    if r in Flatten(histories) && EpochOf(r.bucketStartMs) == range.Bucket(i) {
      var b :| 0 <= b < |histories| && r in histories[b] && EpochOf(r.bucketStartMs) == range.Bucket(b);
      assert b == i;
    }
  }

  lemma CellOfList(range: Range, histories: seq<seq<HistoryRow>>, i: int, c: string)
    requires AreBucketLists(range, histories) && 0 <= i < |histories|
    requires IsHistoryUsable(range, multiset(Flatten(histories)))
    ensures var cells := CellsAt(range, multiset(Flatten(histories)), range.Bucket(i));
            && (c in cells <==> exists k :: 0 <= k < |histories[i]| && histories[i][k].country == c)
            && (forall k | 0 <= k < |histories[i]| && histories[i][k].country == c ::
                  c in cells && cells[c] == histories[i][k].delivered)
  {
    hide IsGoodHistory, EpochOf, CellsAt, IsHistoryUsable, AreBucketLists, Flatten;
    var rows := Flatten(histories);
    CellOfRow(range, multiset(rows), range.Bucket(i), c);
    forall k | 0 <= k < |histories[i]| && histories[i][k].country == c
      ensures histories[i][k] in multiset(rows) && EpochOf(histories[i][k].bucketStartMs) == range.Bucket(i)
    {
      RowsOfBucket(range, histories, i, histories[i][k]);
    }
    if c in CellsAt(range, multiset(rows), range.Bucket(i)) {
      var r: HistoryRow :| r in multiset(rows) && EpochOf(r.bucketStartMs) == range.Bucket(i) && r.country == c;
      RowsOfBucket(range, histories, i, r);
    }
  }

  /** The reader's counted cells of a bucket are the counts of that bucket's list. */
  lemma CellsOfList(range: Range, histories: seq<seq<HistoryRow>>, i: int, counts: map<string, int>)
    requires AreBucketLists(range, histories) && 0 <= i < |histories|
    requires IsHistoryUsable(range, multiset(Flatten(histories))) && AreCountsOf(counts, histories[i])
    ensures Counted(CellsAt(range, multiset(Flatten(histories)), range.Bucket(i))) == counts
  {
    hide CellsAt, IsHistoryUsable, AreBucketLists, Flatten;
    var counted := Counted(CellsAt(range, multiset(Flatten(histories)), range.Bucket(i)));
    forall c
      ensures c in counted <==> c in counts
      ensures c in counts && c in counted ==> counted[c] == counts[c]
    {
      CellOfList(range, histories, i, c);
    }
  }

  lemma NormalCountsAreSound(s: Snapshot, state: StateRow, cells: map<string, Option<int>>)
    requires IsNormal(s) && Counted(cells) == s.countries
    requires StateReason(Some(state)).None? && state.deliveredTotal == Some(s.observed)
    ensures BucketReason(Some(state), cells).None?
  {
    var c :| c in s.countries;
    assert c in cells;
    assert IsSummable(Counted(cells));
  }

  lemma {:induction false} SumIsObserved(
    range: Range, history: multiset<HistoryRow>, snapshots: seq<Snapshot>, n: nat)
    requires IsHistoryUsable(range, history) && IsGridded(range) && n <= |snapshots|
    requires forall i | 0 <= i < n ::
               Sum(Counted(CellsAt(range, history, range.Bucket(i)))) == snapshots[i].observed
    ensures SumBefore(range, history, n) == ObservedSum(snapshots[..n])
  {
    hide IsHistoryUsable, Counted, CellsAt, Sum, IsGridded, SumBefore;
    if n == 0 {
      SumBeforeStart(range, history);
    } else {
      SumIsObserved(range, history, snapshots, n - 1);
      SumGoesOn(range, history, n - 1);
      assert snapshots[..n][..n - 1] == snapshots[..n - 1];
    }
  }

  lemma SumGoesOn(range: Range, history: multiset<HistoryRow>, i: int)
    requires IsHistoryUsable(range, history) && IsGridded(range)
    ensures SumBefore(range, history, i + 1)
            == SumBefore(range, history, i) + Sum(Counted(CellsAt(range, history, range.Bucket(i))))
  {
    hide IsHistoryUsable, Counted, CellsAt, Sum, IsGridded, AllCounted, CountedBefore;
    BucketAddsItsSum(range, history, i);
  }

  /**
   If reconciliation says `Unchanged` for every bucket of the range and the observed counts fit, the
   reader calls the concatenated rows complete, with the sum of the observed counts as the total.
   */
  lemma PublisherAndReaderAgree(
    range: Range, snapshots: seq<Snapshot>, states: seq<StateRow>, histories: seq<seq<HistoryRow>>)
    requires IsGridded(range) && 1 <= range.Size()
    requires AllUnchanged(range, snapshots, states, histories) && ObservedSum(snapshots) <= MAX_COUNTER
    ensures Evaluate(range, multiset(states), multiset(Flatten(histories)))
            == Evaluation(range.Size(), range.Size(), Some(ObservedSum(snapshots)), None)
  {
    hide IsUnchanged, IsBucketList, IsGridded, AreStatesUsable, IsHistoryUsable, Counted, CellsAt, StateAt, Sum;
    hide AllCounted, SumBefore, BucketReason, Scan, IsBucketSound;
    var s, h := multiset(states), multiset(Flatten(histories));
    StatesOfUnchanged(range, snapshots, states, histories);
    forall i | 0 <= i < range.Size()
      ensures IsBucketList(range, i, histories[i])
    {
      UnchangedHistory(range, i, snapshots[i], states[i], histories[i]);
    }
    FlattenedLists(range, histories);
    ListIsUsable(range, Flatten(histories));
    forall i | 0 <= i < range.Size()
      ensures IsBucketSound(range, s, h, i)
      ensures Sum(Counted(CellsAt(range, h, range.Bucket(i)))) == snapshots[i].observed
    {
      UnchangedState(range, i, snapshots[i], states[i], histories[i]);
      UnchangedCounts(range, i, snapshots[i], states[i], histories[i]);
      CellsOfList(range, histories, i, snapshots[i].countries);
      NormalCountsAreSound(snapshots[i], states[i], CellsAt(range, h, range.Bucket(i)));
      SoundIsWithoutReason(range, s, h, i);
    }
    SumIsObserved(range, h, snapshots, range.Size());
    assert snapshots[..range.Size()] == snapshots;
    SumBeforeStart(range, h);
    CompleteExactly(range, s, h);
  }

  lemma UnchangedCounts(range: Range, i: int, s: Snapshot, state: StateRow, rows: seq<HistoryRow>)
    requires IsUnchanged(range, i, s, state, rows)
    ensures IsNormal(s) && AreCountsOf(s.countries, rows) && Sum(s.countries) == s.observed
  {
    hide Sum, IsCountry, AreCountsOf, IsPublishable;
  }
}
