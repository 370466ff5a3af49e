/**
 From clicks to the report: redirect requests, the Redis buckets they fill, the published rows, the reader's
 evaluation and the Admin report, put together.
 */
module DeliveredEndToEnd {
  import opened Outcomes
  import opened MapSums
  import opened DeliveredObserver
  import opened DeliveredCompleteness
  import opened DeliveredPublisher
  import opened DeliveredAgreement
  import opened AdminReport
  import opened AdminReportBuild
  import Redirect = RedirectAccounting
  import TrafficShield

  /** The i-th bucket of the range, as the requests name it. */
  function BucketOf(range: Range, i: int): Redirect.Bucket {
    Redirect.Bucket(range.domainId, range.Bucket(i))
  }

  /** The requests of the i-th bucket that were accepted: delivered, no duplicates, and recorded. */
  function AcceptedRequests(w: Redirect.World, range: Range, i: int): set<nat> {
    Redirect.AccountedRequests(w, Redirect.Account(BucketOf(range, i), TrafficShield.Delivered))
  }

  /** How many requests were accepted in the first n buckets of the range. */
  function AcceptedIn(w: Redirect.World, range: Range, n: nat): nat {
    if n == 0 then 0 else AcceptedIn(w, range, n - 1) + |AcceptedRequests(w, range, n - 1)|
  }

  /**
   The i-th source bucket is what the observer's script made of its calls, and the script accepted as many
   of them as the requests have observed.
   */
  ghost predicate IsFilledBy(w: Redirect.World, range: Range, i: int, calls: seq<Call>, s: Snapshot) {
    && (forall c | c in calls :: IsCountry(c.country))
    && Accepted(calls, None) == Redirect.CountOf(w.observed, BucketOf(range, i))
    && IsBucket(AfterCalls(calls))
    && s == SnapshotOf(range.domainId, range.Bucket(i) * 1000, s.redisRunIdSha256, AfterCalls(calls))
  }

  ghost predicate AllFilled(w: Redirect.World, range: Range, calls: seq<seq<Call>>, snapshots: seq<Snapshot>) {
    && |calls| == |snapshots| == range.Size()
    && forall i | 0 <= i < range.Size() :: IsFilledBy(w, range, i, calls[i], snapshots[i])
  }

  lemma FilledCounts(w: Redirect.World, range: Range, i: int, calls: seq<Call>, s: Snapshot)
    requires IsFilledBy(w, range, i, calls, s)
    ensures s.observed == Redirect.CountOf(w.observed, BucketOf(range, i))
  {
    ObservationsAreConserved(calls, "??");
  }

  /** The observed counts never add up to more than was accepted, and to just that in settled buckets. */
  lemma {:induction false} SumsOfBuckets(
    es: seq<Redirect.Event>, range: Range, calls: seq<seq<Call>>, snapshots: seq<Snapshot>, n: nat)
    requires AllFilled(Redirect.RunAll(es), range, calls, snapshots) && n <= range.Size()
    ensures ObservedSum(snapshots[..n]) <= AcceptedIn(Redirect.RunAll(es), range, n)
    ensures (forall i | 0 <= i < n :: Redirect.IsSettled(Redirect.RunAll(es), BucketOf(range, i))) ==>
              ObservedSum(snapshots[..n]) == AcceptedIn(Redirect.RunAll(es), range, n)
  {
    hide Redirect.RunAll, Redirect.IsSettled, IsFilledBy, Redirect.AccountedRequests;
    if n > 0 {
      SumsOfBuckets(es, range, calls, snapshots, n - 1);
      FilledCounts(Redirect.RunAll(es), range, n - 1, calls[n - 1], snapshots[n - 1]);
      var b := BucketOf(range, n - 1);
      Redirect.CountsAreExact(es, Redirect.Account(b, TrafficShield.Delivered), Redirect.Gap(b, Redirect.ClaimGap));
      Redirect.ObservedNeverExceedsAccounted(es, b);
      if Redirect.IsSettled(Redirect.RunAll(es), BucketOf(range, n - 1)) {
        Redirect.SettledBucketsAreEqual(es, BucketOf(range, n - 1));
      }
      assert snapshots[..n][..n - 1] == snapshots[..n - 1];
    }
  }

  /** The report's input: the evaluation of exactly these rows, over a window that tracking covers. */
  ghost predicate Evaluates(
    input: ReportInput, range: Range, states: seq<StateRow>, histories: seq<seq<HistoryRow>>)
  {
    && input.deliveredApplicable
    && ActivationCovers(input.deliveredCompleteFrom, input.startMs) == Ok(true)
    && input.deliveredEvaluation == Some(Evaluate(range, multiset(states), multiset(Flatten(histories))))
  }

  /**
   The delivered total of a report is the number of requests that were accepted: the claim called them no
   duplicates, their decision neither filtered nor diverted them, and their record call had its effect. Take
   any interleaving of redirect requests, with any failures and stops; let the observer's buckets hold what
   the requests observed, let the publisher find every bucket of the range unchanged, and let the report be
   built on the evaluation of the published rows. Then the total is shown, it is never more than was accepted
   in the range, and it is just that if every bucket is settled: no gap was marked and all its requests ended.
   */
  lemma ReportCountsAcceptedClicks(
    es: seq<Redirect.Event>, range: Range, calls: seq<seq<Call>>, snapshots: seq<Snapshot>,
    states: seq<StateRow>, histories: seq<seq<HistoryRow>>,
    input: ReportInput, rows: multiset<Aggregate>, report: Report)
    requires IsGridded(range) && 1 <= range.Size()
    requires AllFilled(Redirect.RunAll(es), range, calls, snapshots)
    requires AllUnchanged(range, snapshots, states, histories) && ObservedSum(snapshots) <= MAX_COUNTER
    requires Evaluates(input, range, states, histories)
    requires IsReportable(input, rows) && IsReportOf(input, rows, report)
    ensures report.totals.delivered == Some(ObservedSum(snapshots))
    ensures report.totals.delivered.value <= AcceptedIn(Redirect.RunAll(es), range, range.Size())
    ensures (forall i | 0 <= i < range.Size() :: Redirect.IsSettled(Redirect.RunAll(es), BucketOf(range, i))) ==>
              report.totals.delivered == Some(AcceptedIn(Redirect.RunAll(es), range, range.Size()))
  {
    hide Redirect.RunAll, Redirect.IsSettled, AllUnchanged, IsFilledBy, Evaluate, IsListing, DoRowsFit, Sum;
    hide ColumnOf, DiversionPercentage, ActivationCovers, IsGridded;
    PublisherAndReaderAgree(range, snapshots, states, histories);
    SumsOfBuckets(es, range, calls, snapshots, range.Size());
    assert snapshots[..range.Size()] == snapshots;
    assert FamiliesOf(input).value.delivered;
    assert report.totals.delivered == report.totals.Get(Delivered);
  }
}
