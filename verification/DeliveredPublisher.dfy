/**
 The publisher's comparison of one sealed Redis bucket with its published rows, and its agreement with
 the reader: what the publisher leaves unchanged in every bucket, the reader calls complete.
 */
module DeliveredPublisher {
  import opened Outcomes
  import opened MapSums
  import opened DeliveredObserver
  import opened DeliveredCompleteness
  import opened DeliveredTotals

  datatype Snapshot = Snapshot(
    domainId: int, bucketStartMs: int, redisRunIdSha256: ShaText, observed: int, countries: map<string, int>)

  datatype Reconciliation =
    | SourceUnavailable
    | InvalidSourceBucket
    | Replace(sourceSha256: ShaText, deliveredTotal: int)
    | Unchanged(sourceSha256: ShaText, deliveredTotal: int)

  // ---------------------------------------------------------------------------------------------
  // The source bucket
  // ---------------------------------------------------------------------------------------------

  /** What normalizeSnapshot lets through. */
  ghost predicate IsNormal(s: Snapshot) {
    && 1 <= s.domainId <= 65_535
    && IsAligned(s.bucketStartMs)
    && !s.redisRunIdSha256.Malformed?
    && IsCounter(s.observed)
    && 1 <= |s.countries| <= MAX_COUNTRIES
    && (forall c | c in s.countries :: IsCountry(c) && IsCounter(s.countries[c]))
    && Sum(s.countries) == s.observed
  }

  method NormalizeSnapshot(s: Snapshot) returns (normal: bool)
    ensures normal <==> IsNormal(s)
  {
    hide Sum, IsCountry;
    if s.domainId < 1 || 65_535 < s.domainId || !IsAligned(s.bucketStartMs) || s.redisRunIdSha256.Malformed?
       || !IsCounter(s.observed) || |s.countries| < 1 || MAX_COUNTRIES < |s.countries| {
      return false;
    }
    var total := 0;
    var rest := s.countries.Keys;
    NothingLeft(s.countries);
    while rest != {}
      invariant rest <= s.countries.Keys
      invariant forall c | c in s.countries && c !in rest :: IsCountry(c) && IsCounter(s.countries[c])
      invariant total == Sum(s.countries - rest) && total <= MAX_COUNTER
    {
      var c :| c in rest;
      OneMore(s.countries, rest, c);
      if !IsCountry(c) || !IsCounter(s.countries[c]) {
        return false;
      }
      if MAX_COUNTER - s.countries[c] < total {
        PartExceeds(s, rest - {c});
        return false;
      }
      rest := rest - {c};
      total := total + s.countries[c];
    }
    return total == s.observed;
  }

  lemma NothingLeft(counts: map<string, int>)
    ensures counts - counts.Keys == map[] && Sum<string>(map[]) == 0 && counts - {} == counts
  {
  }

  lemma OneMore(counts: map<string, int>, rest: set<string>, c: string)
    requires c in rest && rest <= counts.Keys
    ensures Sum(counts - (rest - {c})) == Sum(counts - rest) + counts[c]
  {
    SumWith(counts - rest, c, counts[c]);
    assert counts - (rest - {c}) == (counts - rest)[c := counts[c]];
  }

  /** A part that is too large already means the whole is not the observed count. */
  lemma PartExceeds(s: Snapshot, rest: set<string>)
    requires MAX_COUNTER < Sum(s.countries - rest)
    ensures !IsNormal(s)
  {
    if IsNormal(s) {
      var part := s.countries - rest;
      var other := map c | c in s.countries && c in rest :: s.countries[c];
      assert s.countries == part + other;
      SumOfUnion(part, other);
      SumOfPositives(other);
    }
  }

  /** The bucket that the observer's script has filled, read back. */
  function SnapshotOf(domainId: int, bucketStartMs: int, runId: ShaText, fields: map<string, int>): Snapshot
    requires forall f | f in Countries(fields) :: |f| == 4 && f == CountryField(f[2..])
  {
    Snapshot(
      domainId, bucketStartMs, runId, Get(fields, OBSERVED_FIELD),
      map f | f in Countries(fields) :: f[2..] := fields[f])
  }

  /** The counts by country code are the counts by field. */
  lemma CodesCarryCounts(counts: map<string, int>, codes: map<string, int>)
    requires forall f | f in counts :: |f| == 4 && f == CountryField(f[2..])
    requires codes == map f | f in counts :: f[2..] := counts[f]
    ensures Sum(codes) == Sum(counts)
  {
    SumOfRenamed(counts, codes, (f: string) => if |f| == 4 then f[2..] else f);
  }

  lemma NonemptyBucketCounts(fields: map<string, int>)
    requires IsBucket(fields) && fields != map[]
    ensures 1 <= |Countries(fields)| <= MAX_COUNTRIES
    ensures forall f | f in Countries(fields) :: fields[f] <= Get(fields, OBSERVED_FIELD)
    ensures 0 < Get(fields, OBSERVED_FIELD)
  {
    var counts := Countries(fields);
    BucketsAreSmall(fields);
    SumOfPositives(counts);
    if counts.Keys == {} {
      assert false;
    }
  }

  /** Every nonempty bucket within the counter range is a normal source. */
  lemma BucketsAreNormal(domainId: int, bucketStartMs: int, runId: ShaText, fields: map<string, int>)
    requires 1 <= domainId <= 65_535 && IsAligned(bucketStartMs) && !runId.Malformed?
    requires IsBucket(fields) && fields != map[] && Get(fields, OBSERVED_FIELD) <= MAX_COUNTER
    ensures IsNormal(SnapshotOf(domainId, bucketStartMs, runId, fields))
  {
    hide Sum, IsCountry, IsAligned;
    var s := SnapshotOf(domainId, bucketStartMs, runId, fields);
    var counts := Countries(fields);
    NonemptyBucketCounts(fields);
    CodesAreFields(counts);
    assert s.countries.Keys == CodesOf(counts);
    CodesCarryCounts(counts, s.countries);
  }

  /** The counts by code, written as the observer writes them. */
  function FieldsOf(s: Snapshot): map<string, int> {
    (map f | f in set c | c in s.countries :: CountryField(c) :: s.countries[f[2..]])[OBSERVED_FIELD := s.observed]
  }

  /** The same counts, by field and by country code. */
  predicate IsRenamed(counts: map<string, int>, codes: map<string, int>) {
    && (forall f | f in counts ::
          |f| == 4 && f == CountryField(f[2..]) && f[2..] in codes && counts[f] == codes[f[2..]])
    && (forall c | c in codes :: CountryField(c) in counts)
  }

  /** What the observer leaves of a bucket that counted something. */
  ghost predicate IsLeftByObserver(s: Snapshot) {
    && 1 <= s.domainId <= 65_535 && IsAligned(s.bucketStartMs) && !s.redisRunIdSha256.Malformed?
    && 0 < s.observed <= MAX_COUNTER
    && IsBucket(FieldsOf(s)) && s == SnapshotOf(s.domainId, s.bucketStartMs, s.redisRunIdSha256, FieldsOf(s))
  }

  /** Exactly what the observer can leave passes, so a bucket that is refused was written by somebody else. */
  lemma NormalSourcesAreBuckets(s: Snapshot)
    ensures IsNormal(s) <==> IsLeftByObserver(s)
  {
    hide IsNormal, IsLeftByObserver;
    if IsNormal(s) {
      NormalIsBucket(s);
    }
    if IsLeftByObserver(s) {
      BucketIsNormal(s);
    }
  }

  lemma ObservedIsKept(s: Snapshot)
    ensures Get(FieldsOf(s), OBSERVED_FIELD) == s.observed && FieldsOf(s) != map[]
  {
  }

  lemma BucketIsNormal(s: Snapshot)
    requires IsLeftByObserver(s)
    ensures IsNormal(s)
  {
    hide IsAligned, IsNormal, FieldsOf;
    ObservedIsKept(s);
    BucketsAreNormal(s.domainId, s.bucketStartMs, s.redisRunIdSha256, FieldsOf(s));
  }

  lemma NormalIsBucket(s: Snapshot)
    requires IsNormal(s)
    ensures IsLeftByObserver(s)
  {
    hide Sum, IsAligned, FieldsOf, CountryField;
    var counts := Countries(FieldsOf(s));
    ObservedIsKept(s);
    FieldsAreCodes(s);
    RenamedBack(counts, s.countries);
    CodesCarryCounts(counts, s.countries);
  }

  lemma RenamedBack(counts: map<string, int>, codes: map<string, int>)
    requires IsRenamed(counts, codes)
    ensures codes == map f | f in counts :: f[2..] := counts[f]
  {
    var back := map f | f in counts :: f[2..] := counts[f];
    forall c | c in codes
      ensures c in back && back[c] == codes[c]
    {
      assert CountryField(c) in counts && CountryField(c)[2..] == c;
    }
  }

  lemma FieldsAreCodes(s: Snapshot)
    requires forall c | c in s.countries :: IsCountry(c)
    ensures IsRenamed(Countries(FieldsOf(s)), s.countries)
  {
    forall c | c in s.countries
      ensures CountryField(c)[2..] == c && CountryField(c) != OBSERVED_FIELD
    {
      CountryIsNotObserved(c);
    }
  }

  // ---------------------------------------------------------------------------------------------
  // The published rows of one bucket
  // ---------------------------------------------------------------------------------------------

  predicate IsRowOf(s: Snapshot, row: HistoryRow) {
    && row.domainId == s.domainId
    && SafeEpoch(row.bucketStartMs) == SafeEpoch(s.bucketStartMs)
    && IsCountry(row.country)
    && (row.delivered.Some? ==> IsCounter(row.delivered.value))
  }

  predicate HasNoTwins(rows: seq<HistoryRow>) {
    forall i, j | 0 <= i < j < |rows| :: rows[i].country != rows[j].country
  }

  predicate IsPublishable(s: Snapshot, rows: seq<HistoryRow>) {
    (forall i | 0 <= i < |rows| :: IsRowOf(s, rows[i])) && HasNoTwins(rows)
  }

  /** `counts` are the counted cells of `rows`. */
  predicate AreCountsOf(counts: map<string, int>, rows: seq<HistoryRow>) {
    && (forall i | 0 <= i < |rows| && rows[i].delivered.Some? ::
          rows[i].country in counts && counts[rows[i].country] == rows[i].delivered.value)
    && (forall c | c in counts :: exists i :: 0 <= i < |rows| && rows[i].country == c && rows[i].delivered.Some?)
  }

  method PublishedCountryMap(s: Snapshot, rows: seq<HistoryRow>) returns (r: Option<map<string, int>>)
    ensures r.Some? <==> IsPublishable(s, rows)
    ensures r.Some? ==> AreCountsOf(r.value, rows)
  {
    hide IsCountry, SafeEpoch;
    var countries: map<string, int> := map[];
    var seen: set<string> := {};
    for i := 0 to |rows|
      invariant IsPublishable(s, rows[..i]) && AreCountsOf(countries, rows[..i])
      invariant seen == set j | 0 <= j < i :: rows[j].country
    {
      var row := rows[i];
      assert rows[..i + 1] == rows[..i] + [row];
      if !IsRowOf(s, row.(delivered := None)) || row.country in seen {
        return None;
      }
      seen := seen + {row.country};
      if row.delivered.Some? {
        if !IsCounter(row.delivered.value) {
          return None;
        }
        countries := countries[row.country := row.delivered.value];
      }
    }
    assert rows[..|rows|] == rows;
    return Some(countries);
  }

  /** The exact payload digest of a source bucket. */
  function SourceSha256(s: Snapshot): ShaText {
    OfSource(s.domainId, EpochOf(s.bucketStartMs), s.redisRunIdSha256, s.observed, s.countries)
  }

  predicate MatchesState(s: Snapshot, state: Option<StateRow>) {
    && state.Some?
    && state.value.domainId == s.domainId
    && SafeEpoch(state.value.bucketStartMs) == SafeEpoch(s.bucketStartMs)
    && state.value.status.Complete?
    && state.value.deliveredTotal == Some(s.observed)
    && state.value.provenance.RedisNonempty?
    && state.value.redisRunIdSha256 == Some(s.redisRunIdSha256)
    && state.value.sourceSha256 == SourceSha256(s)
  }

  ghost predicate IsPublished(s: Snapshot, state: Option<StateRow>, rows: seq<HistoryRow>) {
    && IsNormal(s)
    && MatchesState(s, state)
    && IsPublishable(s, rows)
    && AreCountsOf(s.countries, rows)
  }

  lemma CountsAreUnique(a: map<string, int>, b: map<string, int>, rows: seq<HistoryRow>)
    requires AreCountsOf(a, rows) && AreCountsOf(b, rows)
    ensures a == b
  {
    forall c
      ensures c in a <==> c in b
      ensures c in a && c in b ==> a[c] == b[c]
    {
    }
  }

  /** `Unchanged` exactly when the published rows are the source bucket, counted and described. */
  method ReconcileDeliveredCountryBucket(
    snapshot: Option<Snapshot>, state: Option<StateRow>, rows: seq<HistoryRow>)
    returns (r: Reconciliation)
    ensures r.SourceUnavailable? <==> snapshot.None?
    ensures r.InvalidSourceBucket? <==> snapshot.Some? && !IsNormal(snapshot.value)
    ensures r.Unchanged? <==> snapshot.Some? && IsPublished(snapshot.value, state, rows)
    ensures r.Unchanged? ==>
              && state.Some? && state.value.domainId == snapshot.value.domainId
              && state.value.bucketStartMs == snapshot.value.bucketStartMs
              && state.value.status == Complete && state.value.provenance == RedisNonempty
              && state.value.deliveredTotal == Some(snapshot.value.observed)
              && state.value.redisRunIdSha256 == Some(snapshot.value.redisRunIdSha256)
              && state.value.sourceSha256 == SourceSha256(snapshot.value)
              && (forall row | row in rows ::
                    row.domainId == snapshot.value.domainId && row.bucketStartMs == snapshot.value.bucketStartMs)
    ensures r.Replace? || r.Unchanged? ==>
              r.sourceSha256 == SourceSha256(snapshot.value) && r.deliveredTotal == snapshot.value.observed
  {
    if snapshot.None? {
      return SourceUnavailable;
    }
    var s := snapshot.value;
    var normal := NormalizeSnapshot(s);
    if !normal {
      return InvalidSourceBucket;
    }
    hide IsNormal, IsPublishable, AreCountsOf, MatchesState;
    var published := PublishedCountryMap(s, rows);
    if !MatchesState(s, state) || published.None? || s.countries != published.value {
      if published.Some? && AreCountsOf(s.countries, rows) {
        CountsAreUnique(s.countries, published.value, rows);
      }
      return Replace(SourceSha256(s), s.observed);
    }
    return Unchanged(SourceSha256(s), s.observed);
  }
}
