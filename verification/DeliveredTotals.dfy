/** What a complete range is, what it sums up to, and that the publisher and the reader agree on it. */
module DeliveredTotals {
  import opened Outcomes
  import opened MapSums
  import opened DeliveredObserver
  import opened DeliveredCompleteness

  // ---------------------------------------------------------------------------------------------
  // Completeness, declaratively
  // ---------------------------------------------------------------------------------------------

  /** Every counted history row, by bucket and country. */
  function AllCounted(range: Range, history: multiset<HistoryRow>): map<(int, string), int>
    requires IsHistoryUsable(range, history)
  {
    map r | r in history && r.delivered.Some? :: (EpochOf(r.bucketStartMs), r.country) := r.delivered.value
  }

  function CountedBefore(counted: map<(int, string), int>, epoch: int): map<(int, string), int> {
    map k | k in counted && k.0 < epoch :: counted[k]
  }

  function CountedIn(counted: map<(int, string), int>, epoch: int): map<(int, string), int> {
    map k | k in counted && k.0 == epoch :: counted[k]
  }

  /** A sealed and sourced state row of the bucket at `epoch` that carries `total`. */
  predicate IsSealed(state: StateRow, epoch: int, total: int) {
    && EpochOf(state.bucketStartMs) == epoch
    && state.status.Complete? && state.provenance.RedisNonempty?
    && !state.sourceSha256.Malformed? && IsShaText(state.redisRunIdSha256)
    && state.deliveredTotal == Some(total)
  }

  /** Bucket i has counted rows, all of them positive, and a sealed state row that carries their sum. */
  ghost predicate IsBucketSound(range: Range, states: multiset<StateRow>, history: multiset<HistoryRow>, i: int)
    requires IsHistoryUsable(range, history)
  {
    var counted := CountedIn(AllCounted(range, history), range.Bucket(i));
    && counted != map[]
    && (forall k | k in counted :: 0 < counted[k])
    && Sum(counted) <= MAX_COUNTER
    && exists state :: state in states && IsSealed(state, range.Bucket(i), Sum(counted))
  }

  ghost predicate IsCompleteRange(range: Range, states: multiset<StateRow>, history: multiset<HistoryRow>) {
    && AreStatesUsable(range, states)
    && IsHistoryUsable(range, history)
    && (forall i | 0 <= i < range.Size() :: IsBucketSound(range, states, history, i))
    && Sum(AllCounted(range, history)) <= MAX_COUNTER
  }

  lemma CountedOfRow(range: Range, history: multiset<HistoryRow>, epoch: int, country: string)
    requires IsHistoryUsable(range, history)
    ensures (epoch, country) in AllCounted(range, history) <==>
            exists r :: r in history && EpochOf(r.bucketStartMs) == epoch && r.country == country && r.delivered.Some?
    ensures forall r | r in history && EpochOf(r.bucketStartMs) == epoch && r.country == country
                       && r.delivered.Some? ::
              && (epoch, country) in AllCounted(range, history)
              && AllCounted(range, history)[(epoch, country)] == r.delivered.value
  {
    hide IsGoodHistory, EpochOf;
  }

  lemma CountedOfBucket(range: Range, history: multiset<HistoryRow>, epoch: int, country: string)
    requires IsHistoryUsable(range, history)
    ensures country in Counted(CellsAt(range, history, epoch)) <==> (epoch, country) in AllCounted(range, history)
    ensures country in Counted(CellsAt(range, history, epoch)) ==>
              Counted(CellsAt(range, history, epoch))[country] == AllCounted(range, history)[(epoch, country)]
  {
    hide IsHistoryUsable, EpochOf, CellsAt, AllCounted;
    CountedOfRow(range, history, epoch, country);
    CellOfRow(range, history, epoch, country);
  }

  lemma NextBucketSplits(counted: map<(int, string), int>, epoch: int, next: int)
    requires epoch < next && forall k | k in counted && epoch <= k.0 < next :: k.0 == epoch
    ensures Sum(CountedBefore(counted, next))
            == Sum(CountedBefore(counted, epoch)) + Sum(CountedIn(counted, epoch))
  {
    SumOfUnion(CountedBefore(counted, epoch), CountedIn(counted, epoch));
    assert CountedBefore(counted, next) == CountedBefore(counted, epoch) + CountedIn(counted, epoch);
  }

  lemma BucketSum(range: Range, history: multiset<HistoryRow>, epoch: int)
    requires IsHistoryUsable(range, history)
    ensures Sum(CountedIn(AllCounted(range, history), epoch)) == Sum(Counted(CellsAt(range, history, epoch)))
  {
    hide AllCounted, CellsAt, Counted, IsHistoryUsable;
    var cells := Counted(CellsAt(range, history, epoch));
    var own := CountedIn(AllCounted(range, history), epoch);
    forall c | c in cells
      ensures (epoch, c) in own && own[(epoch, c)] == cells[c]
    {
      CountedOfBucket(range, history, epoch, c);
    }
    forall k | k in own
      ensures k.1 in cells && (epoch, k.1) == k
    {
      CountedOfBucket(range, history, epoch, k.1);
    }
    SumOfRenamed(cells, own, c => (epoch, c));
  }

  lemma CountedAlike(range: Range, history: multiset<HistoryRow>, epoch: int)
    requires IsHistoryUsable(range, history)
    ensures var own, cells := CountedIn(AllCounted(range, history), epoch), Counted(CellsAt(range, history, epoch));
            && (own == map[] <==> cells == map[])
            && ((forall k | k in own :: 0 < own[k]) <==> (forall c | c in cells :: 0 < cells[c]))
            && Sum(own) == Sum(cells)
  {
    hide AllCounted, CellsAt, Counted, IsHistoryUsable, Sum;
    BucketSum(range, history, epoch);
    var own, cells := CountedIn(AllCounted(range, history), epoch), Counted(CellsAt(range, history, epoch));
    forall k | k in own
      ensures k.0 == epoch && k.1 in cells && cells[k.1] == own[k]
    {
      CountedOfBucket(range, history, epoch, k.1);
    }
    forall c | c in cells
      ensures (epoch, c) in own && own[(epoch, c)] == cells[c]
    {
      CountedOfBucket(range, history, epoch, c);
    }
  }

  /** The one state row of a bucket is the one that is sealed, if any is. */
  lemma SealedAlike(range: Range, states: multiset<StateRow>, epoch: int, total: int)
    requires AreStatesUsable(range, states)
    ensures (exists state :: state in states && IsSealed(state, epoch, total))
            <==> StateAt(range, states, epoch).Some? && IsSealed(StateAt(range, states, epoch).value, epoch, total)
  {
    hide IsGoodState, EpochOf, IsShaText;
  }

  /** A bucket has no reason against it exactly when its counts are positive, fit, and are sealed. */
  lemma ReasonOfBucket(state: Option<StateRow>, cells: map<string, Option<int>>, epoch: int)
    requires state.Some? ==> EpochOf(state.value.bucketStartMs) == epoch
    ensures var counts := Counted(cells);
            BucketReason(state, cells).None?
            <==> && counts != map[] && (forall c | c in counts :: 0 < counts[c]) && Sum(counts) <= MAX_COUNTER
                 && state.Some? && IsSealed(state.value, epoch, Sum(counts))
  {
    hide EpochOf, Sum, IsShaText;
    var counts := Counted(cells);
    if forall c | c in counts :: 0 < counts[c] {
      SumOfPositives(counts);
    }
  }

  /** The scan finds nothing to object to in exactly the sound buckets. */
  lemma SoundIsWithoutReason(range: Range, states: multiset<StateRow>, history: multiset<HistoryRow>, i: int)
    requires AreStatesUsable(range, states) && IsHistoryUsable(range, history)
    ensures var epoch := range.Bucket(i);
            IsBucketSound(range, states, history, i)
            <==> BucketReason(StateAt(range, states, epoch), CellsAt(range, history, epoch)).None?
  {
    hide AllCounted, IsHistoryUsable, Sum, CountedIn, AreStatesUsable, StateAt, IsSealed, CellsAt, Counted;
    hide BucketReason, EpochOf;
    var epoch := range.Bucket(i);
    var state, cells := StateAt(range, states, epoch), CellsAt(range, history, epoch);
    CountedAlike(range, history, epoch);
    SealedAlike(range, states, epoch, Sum(Counted(cells)));
    StateIsAt(range, states, epoch);
    ReasonOfBucket(state, cells, epoch);
  }

  lemma StateIsAt(range: Range, states: multiset<StateRow>, epoch: int)
    requires AreStatesUsable(range, states)
    ensures var state := StateAt(range, states, epoch);
            state.Some? ==> state.value in states && EpochOf(state.value.bucketStartMs) == epoch
  {
    hide IsGoodState, EpochOf;
  }

  /** The next bucket adds its own sum. */
  lemma BucketAddsItsSum(range: Range, history: multiset<HistoryRow>, i: int)
    requires IsHistoryUsable(range, history) && IsGridded(range)
    ensures Sum(CountedBefore(AllCounted(range, history), range.Bucket(i + 1)))
            == Sum(CountedBefore(AllCounted(range, history), range.Bucket(i)))
               + Sum(Counted(CellsAt(range, history, range.Bucket(i))))
  {
    hide AllCounted, CellsAt, Counted, IsHistoryUsable, CountedBefore, Sum;
    var all := AllCounted(range, history);
    forall k | k in all && range.Bucket(i) <= k.0 < range.Bucket(i + 1)
      ensures k.0 == range.Bucket(i)
    {
      CountedIsAligned(range, history, k);
    }
    NextBucketSplits(all, range.Bucket(i), range.Bucket(i + 1));
    BucketSum(range, history, range.Bucket(i));
  }

  lemma CountedIsAligned(range: Range, history: multiset<HistoryRow>, k: (int, string))
    requires IsHistoryUsable(range, history) && k in AllCounted(range, history)
    ensures k.0 % BUCKET_SECONDS == 0 && range.startEpoch <= k.0 < range.endEpoch
  {
  }

  /** A bucket without a reason is summable, and its state carries the sum. */
  lemma SoundBucketSums(state: Option<StateRow>, cells: map<string, Option<int>>)
    requires BucketReason(state, cells).None?
    ensures state.Some? && state.value.deliveredTotal.Some?
    ensures state.value.deliveredTotal.value == Sum(Counted(cells))
    ensures 0 < Sum(Counted(cells)) <= MAX_COUNTER
  {
  }

  ghost function SumBefore(range: Range, history: multiset<HistoryRow>, i: int): int
    requires IsHistoryUsable(range, history)
  {
    Sum(CountedBefore(AllCounted(range, history), range.Bucket(i)))
  }

  lemma {:induction false} SumsGrow(range: Range, history: multiset<HistoryRow>, i: int, n: int)
    requires IsHistoryUsable(range, history) && IsGridded(range) && i <= n
    ensures SumBefore(range, history, i) <= SumBefore(range, history, n)
    decreases n - i
  {
    hide AllCounted, IsHistoryUsable, CountedBefore, Sum, Range.Bucket, IsGridded;
    if i < n {
      SumsGrow(range, history, i, n - 1);
      BucketAddsItsSum(range, history, n - 1);
      CellsAreNonNegative(range, history, range.Bucket(n - 1));
      assert n - 1 + 1 == n;
    }
  }

  lemma CellsAreNonNegative(range: Range, history: multiset<HistoryRow>, epoch: int)
    requires IsHistoryUsable(range, history)
    ensures 0 <= Sum(Counted(CellsAt(range, history, epoch)))
  {
    SumOfNonNegatives(Counted(CellsAt(range, history, epoch)));
  }

  ghost predicate IsSoundFrom(range: Range, states: multiset<StateRow>, history: multiset<HistoryRow>, i: int)
    requires AreStatesUsable(range, states) && IsHistoryUsable(range, history)
  {
    forall j | i <= j < range.Size() :: IsBucketSound(range, states, history, j)
  }

  lemma {:induction false} ScanIsExact(range: Range, states: multiset<StateRow>, history: multiset<HistoryRow>, i: nat)
    requires AreStatesUsable(range, states) && IsHistoryUsable(range, history) && IsGridded(range)
    requires i <= range.Size() && SumBefore(range, history, i) <= MAX_COUNTER
    ensures var e := Scan(range, states, history, i, SumBefore(range, history, i));
            var sum := SumBefore(range, history, range.Size());
            && (e.reason.None? <==> IsSoundFrom(range, states, history, i) && sum <= MAX_COUNTER)
            && (e.reason.None? ==> e.deliveredTotal == Some(sum) && e.completeBuckets == range.Size())
    decreases range.Size() - i
  {
    hide AreStatesUsable, IsHistoryUsable, StateAt, CellsAt, AllCounted, CountedBefore, Sum, BucketReason;
    hide IsBucketSound, Range.Bucket, Range.Size, IsGridded;
    if i < range.Size() {
      var total := SumBefore(range, history, i);
      var epoch := range.Bucket(i);
      var state, cells := StateAt(range, states, epoch), CellsAt(range, history, epoch);
      ScanGoesOn(range, states, history, i, total);
      SoundIsWithoutReason(range, states, history, i);
      assert IsSoundFrom(range, states, history, i)
        <==> IsBucketSound(range, states, history, i) && IsSoundFrom(range, states, history, i + 1);
      if BucketReason(state, cells).None? {
        SoundBucketSums(state, cells);
        BucketAddsItsSum(range, history, i);
        SumsGrow(range, history, i + 1, range.Size());
        if SumBefore(range, history, i + 1) <= MAX_COUNTER {
          ScanIsExact(range, states, history, i + 1);
        }
      }
    }
  }

  lemma SumBeforeStart(range: Range, history: multiset<HistoryRow>)
    requires IsHistoryUsable(range, history) && IsGridded(range)
    ensures SumBefore(range, history, 0) == 0
    ensures SumBefore(range, history, range.Size()) == Sum(AllCounted(range, history))
  {
    var all := AllCounted(range, history);
    forall k | k in all
      ensures range.Bucket(0) <= k.0 < range.Bucket(range.Size())
    {
      CountedIsAligned(range, history, k);
    }
    hide AllCounted, IsHistoryUsable;
    assert CountedBefore(all, range.Bucket(0)) == map[];
    assert CountedBefore(all, range.Bucket(range.Size())) == all;
  }

  /**
   A range is complete exactly when every row is in place, every bucket is sound and the sum of all
   counted history rows fits; that sum is the total.
   */
  lemma CompleteExactly(range: Range, states: multiset<StateRow>, history: multiset<HistoryRow>)
    requires IsGridded(range) && 1 <= range.Size()
    ensures Evaluate(range, states, history).reason.None? <==> IsCompleteRange(range, states, history)
    ensures Evaluate(range, states, history).reason.None? ==>
              Evaluate(range, states, history)
              == Evaluation(range.Size(), range.Size(), Some(Sum(AllCounted(range, history))), None)
  {
    if AreStatesUsable(range, states) && IsHistoryUsable(range, history) {
      SumBeforeStart(range, history);
      ScanIsExact(range, states, history, 0);
      ScanCounts(range, states, history, 0, 0);
      hide AreStatesUsable, IsHistoryUsable, Scan, AllCounted, Sum, SumBefore, IsBucketSound;
    }
  }

  lemma {:induction false} ScanCounts(
    range: Range, states: multiset<StateRow>, history: multiset<HistoryRow>, i: int, total: int)
    requires AreStatesUsable(range, states) && IsHistoryUsable(range, history)
    ensures Scan(range, states, history, i, total).expectedBuckets == range.Size()
    decreases range.Size() - i
  {
    hide AreStatesUsable, IsHistoryUsable, StateAt, CellsAt, BucketReason, Range.Size, Range.Bucket;
    if i < range.Size() {
      ScanGoesOn(range, states, history, i, total);
      var state := StateAt(range, states, range.Bucket(i));
      if BucketReason(state, CellsAt(range, history, range.Bucket(i))).None? {
        SoundBucketSums(state, CellsAt(range, history, range.Bucket(i)));
        ScanCounts(range, states, history, i + 1, total + state.value.deliveredTotal.value);
      }
    }
  }
}
