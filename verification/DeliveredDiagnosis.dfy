/** Why a range is incomplete: the evaluation stops at the first bucket that is not sound and names what is wrong. */
module DeliveredDiagnosis {
  import opened Outcomes
  import opened MapSums
  import opened DeliveredObserver
  import opened DeliveredCompleteness
  import opened DeliveredTotals

  /** An accepted range: two ten-minute marks among the dates, one to 1008 buckets apart. */
  lemma RangesAreExact(domainId: int, startMs: int, endMs: int)
    ensures RangeOf(domainId, startMs, endMs).Ok? <==>
              && startMs % 600_000 == 0 && endMs % 600_000 == 0
              && -8_640_000_000_000_000 <= startMs && endMs <= 8_640_000_000_000_000
              && 600_000 <= endMs - startMs <= 1008 * 600_000
    ensures RangeOf(domainId, startMs, endMs).Ok? ==>
              && var range := RangeOf(domainId, startMs, endMs).value;
                 && range.domainId == domainId && range.startEpoch * 1000 == startMs && range.endEpoch * 1000 == endMs
                 && range.Size() * 600_000 == endMs - startMs
  {
    AlignedByMillis(startMs);
    AlignedByMillis(endMs);
  }

  lemma AlignedByMillis(ms: int)
    ensures IsAligned(ms) <==> -8_640_000_000_000_000 <= ms <= 8_640_000_000_000_000 && ms % 600_000 == 0
    ensures IsAligned(ms) ==> EpochOf(ms) * 1000 == ms && EpochOf(ms) % 600 == 0
  {
    if ms % 1000 == 0 {
      assert ms == 1000 * (ms / 1000);
      assert ms % 600_000 == 0 <==> ms / 1000 % 600 == 0;
    }
  }

  /** A bucket of this range: its own domain and one of its ten-minute marks. */
  predicate IsInRange(range: Range, domainId: int, bucketStartMs: int) {
    && domainId == range.domainId && bucketStartMs % 600_000 == 0
    && -8_640_000_000_000_000 <= bucketStartMs <= 8_640_000_000_000_000
    && range.startEpoch * 1000 <= bucketStartMs < range.endEpoch * 1000
  }

  /** Every row is of the range, no bucket has two states, and no country has two rows in one bucket. */
  predicate AreRowsInPlace(range: Range, states: multiset<StateRow>, history: multiset<HistoryRow>) {
    && (forall s | s in states :: IsInRange(range, s.domainId, s.bucketStartMs) && states[s] == 1)
    && (forall s, t | s in states && t in states && s.bucketStartMs == t.bucketStartMs :: s == t)
    && (forall h | h in history ::
          && IsInRange(range, h.domainId, h.bucketStartMs) && history[h] == 1
          && IsCountry(h.country) && (h.delivered.Some? ==> 0 <= h.delivered.value))
    && (forall h, g | h in history && g in history && h.bucketStartMs == g.bucketStartMs && h.country == g.country ::
          h == g)
  }

  lemma CoveredIsInRange(range: Range, domainId: int, bucketStartMs: int)
    ensures range.Covers(domainId, bucketStartMs) <==> IsInRange(range, domainId, bucketStartMs)
    ensures range.Covers(domainId, bucketStartMs) ==> EpochOf(bucketStartMs) * 1000 == bucketStartMs
  {
    AlignedByMillis(bucketStartMs);
  }

  lemma UsableIsInPlace(range: Range, states: multiset<StateRow>, history: multiset<HistoryRow>)
    ensures AreStatesUsable(range, states) && IsHistoryUsable(range, history) <==>
            AreRowsInPlace(range, states, history)
  {
    hide EpochOf, IsInRange, IsCountry, Range.Covers;
    forall s | s in states
      ensures IsGoodState(range, s) <==> IsInRange(range, s.domainId, s.bucketStartMs)
      ensures IsGoodState(range, s) ==> EpochOf(s.bucketStartMs) * 1000 == s.bucketStartMs
    {
      CoveredIsInRange(range, s.domainId, s.bucketStartMs);
    }
    forall h | h in history
      ensures range.Covers(h.domainId, h.bucketStartMs) <==> IsInRange(range, h.domainId, h.bucketStartMs)
      ensures range.Covers(h.domainId, h.bucketStartMs) ==> EpochOf(h.bucketStartMs) * 1000 == h.bucketStartMs
    {
      CoveredIsInRange(range, h.domainId, h.bucketStartMs);
    }
  }

  // ---------------------------------------------------------------------------------------------
  // What is wrong with a bucket
  // ---------------------------------------------------------------------------------------------

  predicate HasTotal(state: StateRow) {
    state.deliveredTotal.Some? && 0 < state.deliveredTotal.value <= MAX_COUNTER
  }

  predicate HasSource(state: StateRow) {
    && state.sourceSha256 != Malformed
    && state.redisRunIdSha256 != None && state.redisRunIdSha256 != Some(Malformed)
  }

  /** What is wrong with a state row by itself. */
  predicate IsWrongState(state: StateRow, reason: Reason) {
    match reason
    case StateIncomplete => state.status != Complete
    case StateNotPositive => state.status == Complete && !HasTotal(state)
    case InvalidProvenance => state.status == Complete && HasTotal(state) && state.provenance != RedisNonempty
    case InvalidSource =>
      state.status == Complete && HasTotal(state) && state.provenance == RedisNonempty && !HasSource(state)
    case _ => false
  }

  /** What is wrong with the counted rows beside a state row that is in order. */
  ghost predicate IsWrongHistory(state: StateRow, counted: map<(int, string), int>, reason: Reason) {
    && state.status == Complete && HasTotal(state) && state.provenance == RedisNonempty && HasSource(state)
    && match reason
       case MissingHistory => counted == map[]
       case InvalidHistory =>
         counted != map[] && !((forall k | k in counted :: 0 < counted[k]) && Sum(counted) <= MAX_COUNTER)
       case HistoryMismatch =>
         && counted != map[] && (forall k | k in counted :: 0 < counted[k]) && Sum(counted) <= MAX_COUNTER
         && Sum(counted) != state.deliveredTotal.value
       case _ => false
  }

  ghost predicate IsDiagnosis(
    range: Range, states: multiset<StateRow>, history: multiset<HistoryRow>, i: int, reason: Reason)
    requires IsHistoryUsable(range, history)
  {
    var epoch := range.Bucket(i);
    if reason.MissingState? then forall s | s in states :: EpochOf(s.bucketStartMs) != epoch
    else
      exists s :: && s in states && EpochOf(s.bucketStartMs) == epoch
                  && (IsWrongState(s, reason)
                      || IsWrongHistory(s, CountedIn(AllCounted(range, history), epoch), reason))
  }

  lemma StateIsDiagnosed(state: StateRow)
    ensures StateReason(Some(state)).Some? ==> IsWrongState(state, StateReason(Some(state)).value)
    ensures StateReason(Some(state)).None? ==>
              state.status == Complete && HasTotal(state) && state.provenance == RedisNonempty && HasSource(state)
  {
  }

  lemma HistoryIsDiagnosed(state: StateRow, cells: map<string, Option<int>>, counted: map<(int, string), int>)
    requires StateReason(Some(state)).None? && BucketReason(Some(state), cells).Some?
    requires counted == map[] <==> Counted(cells) == map[]
    requires (forall k | k in counted :: 0 < counted[k]) <==> (forall c | c in Counted(cells) :: 0 < Counted(cells)[c])
    requires Sum(counted) == Sum(Counted(cells))
    ensures IsWrongHistory(state, counted, BucketReason(Some(state), cells).value)
  {
    StateIsDiagnosed(state);
    assert Sum<string>(map[]) == 0;
    hide StateReason, HasTotal, HasSource, Sum;
    var counts := Counted(cells);
    if forall c | c in counts :: 0 < counts[c] {
      SumOfPositives(counts);
    }
    assert counts.Keys == {} <==> counts == map[];
    assert cells.Keys == {} ==> counts == map[];
  }

  lemma BucketIsDiagnosed(range: Range, states: multiset<StateRow>, history: multiset<HistoryRow>, i: int)
    requires AreStatesUsable(range, states) && IsHistoryUsable(range, history)
    requires BucketReason(StateAt(range, states, range.Bucket(i)), CellsAt(range, history, range.Bucket(i))).Some?
    ensures var reason := BucketReason(
              StateAt(range, states, range.Bucket(i)), CellsAt(range, history, range.Bucket(i)));
            IsDiagnosis(range, states, history, i, reason.value)
  {
    hide EpochOf, AllCounted, CellsAt, Counted, CountedIn, StateReason, HistoryReason, Sum, IsHistoryUsable;
    var epoch := range.Bucket(i);
    var state, cells := StateAt(range, states, epoch), CellsAt(range, history, epoch);
    CountedAlike(range, history, epoch);
    var reason := BucketReason(state, cells).value;
    if state.Some? {
      StateIsAt(range, states, epoch);
      StateIsDiagnosed(state.value);
      var counted := CountedIn(AllCounted(range, history), epoch);
      if StateReason(Some(state.value)).None? {
        HistoryIsDiagnosed(state.value, cells, counted);
      }
      assert IsWrongState(state.value, reason) || IsWrongHistory(state.value, counted, reason);
    } else {
      MissingIsMissing(states, range, epoch);
    }
  }

  lemma MissingIsMissing(states: multiset<StateRow>, range: Range, epoch: int)
    requires AreStatesUsable(range, states) && StateAt(range, states, epoch).None?
    ensures forall s | s in states :: EpochOf(s.bucketStartMs) != epoch
    ensures StateReason(None) == Some(MissingState)
  {
  }

  // ---------------------------------------------------------------------------------------------
  // The first problem
  // ---------------------------------------------------------------------------------------------

  /** The evaluation stopped at bucket k, after sound ones only: at what is wrong with it, or with the total so far. */
  ghost predicate StopsAt(
    range: Range, states: multiset<StateRow>, history: multiset<HistoryRow>, k: int, reason: Reason)
    requires IsHistoryUsable(range, history)
  {
    && 0 <= k < range.Size()
    && (forall i | 0 <= i < k :: IsBucketSound(range, states, history, i))
    && (|| (!IsBucketSound(range, states, history, k) && IsDiagnosis(range, states, history, k, reason))
        || (IsBucketSound(range, states, history, k) && reason == StateNotPositive
            && MAX_COUNTER < SumBefore(range, history, k + 1)))
  }

  lemma {:induction false} ScanStops(range: Range, states: multiset<StateRow>, history: multiset<HistoryRow>, i: nat)
    requires AreStatesUsable(range, states) && IsHistoryUsable(range, history) && IsGridded(range)
    requires i <= range.Size() && (forall j | 0 <= j < i :: IsBucketSound(range, states, history, j))
    ensures var e := Scan(range, states, history, i, SumBefore(range, history, i));
            e.reason.Some? ==>
              StopsAt(range, states, history, e.completeBuckets, e.reason.value) && e.deliveredTotal == None
    decreases range.Size() - i
  {
    hide AreStatesUsable, IsHistoryUsable, StateAt, CellsAt, AllCounted, CountedBefore, Sum, BucketReason;
    hide IsBucketSound, Range.Bucket, Range.Size, IsGridded, IsDiagnosis, SumBefore;
    if i < range.Size() {
      var total := SumBefore(range, history, i);
      var state, cells := StateAt(range, states, range.Bucket(i)), CellsAt(range, history, range.Bucket(i));
      ScanGoesOn(range, states, history, i, total);
      SoundIsWithoutReason(range, states, history, i);
      if BucketReason(state, cells).Some? {
        BucketIsDiagnosed(range, states, history, i);
      } else {
        SoundBucketSums(state, cells);
        NextSum(range, history, i);
        if SumBefore(range, history, i + 1) <= MAX_COUNTER {
          ScanStops(range, states, history, i + 1);
        }
      }
    }
  }

  lemma NextSum(range: Range, history: multiset<HistoryRow>, i: int)
    requires IsHistoryUsable(range, history) && IsGridded(range)
    ensures SumBefore(range, history, i + 1)
            == SumBefore(range, history, i) + Sum(Counted(CellsAt(range, history, range.Bucket(i))))
  {
    hide IsHistoryUsable, AllCounted, CellsAt, Counted, CountedBefore, Sum;
    BucketAddsItsSum(range, history, i);
  }

  /**
   An incomplete range: `invalid_rows` exactly when some row is out of place, before any bucket is looked at;
   otherwise the first bucket that is not sound, or whose sum is too much, is the one after the complete
   buckets, and the reason is what is wrong with it.
   */
  lemma IncompleteExactly(range: Range, states: multiset<StateRow>, history: multiset<HistoryRow>)
    requires IsGridded(range) && 1 <= range.Size() && Evaluate(range, states, history).reason.Some?
    ensures var e := Evaluate(range, states, history);
            && e.expectedBuckets == range.Size() && e.deliveredTotal == None
            && (e.reason == Some(InvalidRows) <==> !AreRowsInPlace(range, states, history))
            && (e.reason == Some(InvalidRows) ==> e.completeBuckets == 0)
            && (e.reason != Some(InvalidRows) ==>
                  && IsHistoryUsable(range, history)
                  && StopsAt(range, states, history, e.completeBuckets, e.reason.value))
  {
    UsableIsInPlace(range, states, history);
    if AreStatesUsable(range, states) && IsHistoryUsable(range, history) {
      SumBeforeStart(range, history);
      ScanStops(range, states, history, 0);
      ScanCounts(range, states, history, 0, 0);
      NobodyBlamesRows(range, states, history, Evaluate(range, states, history));
    }
    hide AreStatesUsable, IsHistoryUsable, Scan, AllCounted, Sum, IsBucketSound, StopsAt, AreRowsInPlace;
  }

  lemma NobodyBlamesRows(range: Range, states: multiset<StateRow>, history: multiset<HistoryRow>, e: Evaluation)
    requires IsHistoryUsable(range, history) && e.reason.Some?
    requires StopsAt(range, states, history, e.completeBuckets, e.reason.value)
    ensures e.reason != Some(InvalidRows)
  {
    hide IsHistoryUsable, AllCounted, IsBucketSound;
  }
}
