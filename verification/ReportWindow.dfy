/** The completed windows that the Admin report asks for, and that the range evaluation never refuses. */
module ReportWindow {
  import opened Multiples
  import opened Outcomes
  import opened DeliveredObserver
  import opened DeliveredCompleteness

  datatype ReportRange = SixHours | Yesterday | SevenDays
  datatype Timezone = Utc | India

  datatype WindowInput = WindowInput(
    range: ReportRange, timezone: Timezone, nowMs: int, deliveredConfigured: bool, sealLagSeconds: Option<int>)

  datatype Window = Window(startMs: int, endMs: int, expectedBuckets: int)

  const SECONDS_PER_DAY := 86_400
  const MISS_TOLERANCE_SECONDS := 1_200

  function Offset(timezone: Timezone): int {
    match timezone
    case Utc => 0
    case India => 19_800
  }

  function SealLag(configured: bool, value: Option<int>): Result<int, RangeError> {
    if !configured then
      if value.Some? && value.value != 0 then Err(RangeError) else Ok(0)
    else if value.None? || value.value < 1 || 3_600 < value.value then Err(RangeError)
    else Ok(value.value)
  }

  /** How many buckets each range holds. */
  function BucketsOf(range: ReportRange): int {
    match range
    case SixHours => 36
    case Yesterday => 144
    case SevenDays => 1008
  }

  /** The exclusive end of the window, in seconds. */
  function EndEpoch(input: WindowInput, now: int, sealLag: int): int {
    var tolerance := if input.deliveredConfigured then MISS_TOLERANCE_SECONDS else 0;
    var offset := Offset(input.timezone);
    if input.range.SixHours?
    then (now - sealLag - tolerance) / BUCKET_SECONDS * BUCKET_SECONDS
    else (now + offset) / SECONDS_PER_DAY * SECONDS_PER_DAY - offset
  }

  function SpanSeconds(range: ReportRange): int {
    match range
    case SixHours => 6 * 60 * 60
    case Yesterday => SECONDS_PER_DAY
    case SevenDays => 7 * SECONDS_PER_DAY
  }

  /** buildAdminReportWindow. */
  function BuildAdminReportWindow(input: WindowInput): Result<Window, RangeError> {
    if SafeEpoch(input.nowMs).None? then Err(RangeError)
    else
      var sealLag :- SealLag(input.deliveredConfigured, input.sealLagSeconds);
      var end := EndEpoch(input, SafeEpoch(input.nowMs).value, sealLag);
      var start := end - SpanSeconds(input.range);
      var expected := (end - start) / BUCKET_SECONDS;
      if expected < 1 || 1008 < expected then Err(RangeError)
      else Ok(Window(start * 1000, end * 1000, expected))
  }

  /** The moment up to which the range may report. */
  function Horizon(input: WindowInput): int {
    var now := EpochOf(input.nowMs);
    if input.range.SixHours? && input.deliveredConfigured
    then now - input.sealLagSeconds.GetOr(0) - MISS_TOLERANCE_SECONDS
    else now
  }

  /** A boundary of the range: a ten-minute mark, or midnight in the report's own timezone. */
  predicate IsBoundary(input: WindowInput, epoch: int) {
    if input.range.SixHours? then epoch % BUCKET_SECONDS == 0
    else (epoch + Offset(input.timezone)) % SECONDS_PER_DAY == 0
  }

  predicate IsLastBoundary(input: WindowInput, epoch: int) {
    && IsBoundary(input, epoch)
    && epoch <= Horizon(input)
    && !exists later | epoch < later <= Horizon(input) :: IsBoundary(input, later)
  }

  /**
   A window is refused only for an unusable clock or seal lag. Otherwise it ends on the last boundary
   that the horizon has passed and has the full length of its range.
   */
  lemma WindowIsLatestCompleted(input: WindowInput)
    ensures var r := BuildAdminReportWindow(input);
            && (r.Ok? <==>
                  SafeEpoch(input.nowMs).Some? && SealLag(input.deliveredConfigured, input.sealLagSeconds).Ok?)
            && (r.Ok? ==>
                  exists end :: && IsLastBoundary(input, end)
                                && r.value.endMs == end * 1000
                                && r.value.startMs == (end - BucketsOf(input.range) * BUCKET_SECONDS) * 1000
                                && r.value.expectedBuckets == BucketsOf(input.range))
  {
    var lag := SealLag(input.deliveredConfigured, input.sealLagSeconds);
    if SafeEpoch(input.nowMs).Some? && lag.Ok? {
      var end := EndEpoch(input, EpochOf(input.nowMs), lag.value);
      EndIsLastBoundary(input, lag.value);
      hide IsLastBoundary, EndEpoch, SealLag, SafeEpoch;
      assert BuildAdminReportWindow(input).value.endMs == end * 1000;
    }
  }

  lemma EndIsLastBoundary(input: WindowInput, sealLag: int)
    requires SealLag(input.deliveredConfigured, input.sealLagSeconds) == Ok(sealLag)
    ensures IsLastBoundary(input, EndEpoch(input, EpochOf(input.nowMs), sealLag))
  {
    hide EpochOf;
    var end := EndEpoch(input, EpochOf(input.nowMs), sealLag);
    var period := if input.range.SixHours? then BUCKET_SECONDS else SECONDS_PER_DAY;
    var offset := if input.range.SixHours? then 0 else Offset(input.timezone);
    assert end + offset == (Horizon(input) + offset) / period * period;
    MultipleIsLast(Horizon(input) + offset, period);
    forall later | end < later <= Horizon(input)
      ensures !IsBoundary(input, later)
    {
      assert (later + offset) % period != 0;
    }
  }

  lemma MultipleIsLast(x: int, period: int)
    requires 0 < period
    ensures x / period * period <= x && x / period * period % period == 0
    ensures forall m | x / period * period < m <= x :: m % period != 0
  {
    var b := x / period;
    assert x == b * period + x % period;
    forall m | b * period < m <= x
      ensures m % period != 0
    {
      var r := m - b * period;
      assert m == b * period + r && 0 < r < period;
      RemainderIsUnique(m, period, b, r);
    }
    RemainderIsUnique(b * period, period, b, 0);
  }

  /** Midnight in India is 19800 seconds, that is 33 buckets, off midnight UTC. */
  lemma BoundariesAreAligned(input: WindowInput, epoch: int)
    requires IsBoundary(input, epoch)
    ensures epoch % BUCKET_SECONDS == 0
  {
    if !input.range.SixHours? {
      var days := (epoch + Offset(input.timezone)) / SECONDS_PER_DAY;
      assert epoch == BUCKET_SECONDS * (144 * days - (if input.timezone.Utc? then 0 else 33));
    }
  }

  lemma AlignedRange(domainId: int, start: int, buckets: int)
    requires start % BUCKET_SECONDS == 0 && 1 <= buckets <= MAX_WINDOW_BUCKETS
    requires (start + buckets * BUCKET_SECONDS) * 1000 <= MAX_DATE_MS
    ensures var r := RangeOf(domainId, start * 1000, (start + buckets * BUCKET_SECONDS) * 1000);
            && (r.Ok? <==> -MAX_DATE_MS <= start * 1000)
            && (r.Ok? ==> r.value == Range(domainId, start, start + buckets * BUCKET_SECONDS)
                          && r.value.Size() == buckets)
  {
    assert EpochOf(start * 1000) == start;
    assert EpochOf((start + buckets * BUCKET_SECONDS) * 1000) == start + buckets * BUCKET_SECONDS;
  }

  lemma WindowEnd(input: WindowInput) returns (end: int)
    requires BuildAdminReportWindow(input).Ok?
    ensures var w := BuildAdminReportWindow(input).value;
            && w.endMs == end * 1000
            && w.startMs == (end - BucketsOf(input.range) * BUCKET_SECONDS) * 1000
            && w.expectedBuckets == BucketsOf(input.range)
    ensures end % BUCKET_SECONDS == 0 && end * 1000 <= MAX_DATE_MS
  {
    WindowIsLatestCompleted(input);
    HorizonIsDate(input);
    hide BuildAdminReportWindow, IsBoundary, Horizon, SealLag, SafeEpoch;
    var w := BuildAdminReportWindow(input).value;
    end :| && IsLastBoundary(input, end) && w.endMs == end * 1000
           && w.startMs == (end - BucketsOf(input.range) * BUCKET_SECONDS) * 1000;
    BoundariesAreAligned(input, end);
  }

  /**
   The range evaluation accepts every window whose start is still a date, for both timezones and all
   ranges, and sees as many buckets as the window says.
   */
  lemma WindowsAreRanges(input: WindowInput, domainId: int)
    requires BuildAdminReportWindow(input).Ok?
    ensures var w := BuildAdminReportWindow(input).value;
            && (RangeOf(domainId, w.startMs, w.endMs).Ok? <==> -MAX_DATE_MS <= w.startMs)
            && (RangeOf(domainId, w.startMs, w.endMs).Ok? ==>
                  RangeOf(domainId, w.startMs, w.endMs).value.Size() == w.expectedBuckets)
  {
    hide BuildAdminReportWindow, RangeOf;
    var end := WindowEnd(input);
    AlignedRange(domainId, end - BucketsOf(input.range) * BUCKET_SECONDS, BucketsOf(input.range));
  }

  lemma HorizonIsDate(input: WindowInput)
    requires BuildAdminReportWindow(input).Ok?
    ensures Horizon(input) * 1000 <= MAX_DATE_MS
  {
    hide EndEpoch;
  }

  /** Midnight in the report's timezone, India being five and a half hours ahead of UTC. */
  predicate IsMidnight(timezone: Timezone, atMs: int) {
    match timezone
    case Utc => atMs % 86_400_000 == 0
    case India => (atMs + 19_800_000) % 86_400_000 == 0
  }

  /** How far behind the clock a six-hour window must stay: the seal lag and twenty minutes, if counts are sealed. */
  function LagMs(input: WindowInput): int {
    if input.deliveredConfigured then (input.sealLagSeconds.GetOr(0) + 1_200) * 1000 else 0
  }

  /**
   The window in numbers: six hours up to the last ten-minute mark behind the lag, or one or seven days up
   to the last midnight.
   */
  lemma WindowInNumbers(input: WindowInput)
    requires BuildAdminReportWindow(input).Ok?
    ensures var w := BuildAdminReportWindow(input).value;
            && w.expectedBuckets * 600_000 == w.endMs - w.startMs
            && match input.range
               case SixHours =>
                 && w.endMs - w.startMs == 6 * 3_600_000 && w.endMs % 600_000 == 0
                 && w.endMs <= input.nowMs - LagMs(input) < w.endMs + 600_000
               case Yesterday =>
                 && w.endMs - w.startMs == 24 * 3_600_000 && IsMidnight(input.timezone, w.endMs)
                 && w.endMs <= input.nowMs < w.endMs + 86_400_000
               case SevenDays =>
                 && w.endMs - w.startMs == 7 * 24 * 3_600_000 && IsMidnight(input.timezone, w.endMs)
                 && w.endMs <= input.nowMs < w.endMs + 86_400_000
  {
    var now := EpochOf(input.nowMs);
    assert now * 1000 == input.nowMs;
    var sealLag := SealLag(input.deliveredConfigured, input.sealLagSeconds).value;
    var end := EndEpoch(input, now, sealLag);
    var period := if input.range.SixHours? then 600 else 86_400;
    var base := if input.range.SixHours? then now * 1000 - LagMs(input)
                else now * 1000 + Offset(input.timezone) * 1000;
    Rounded(base / 1000, period);
    assert base == base / 1000 * 1000;
  }

  lemma Rounded(x: int, period: int)
    requires period == 600 || period == 86_400
    ensures x / period * period <= x < x / period * period + period
    ensures x / period * period * 1000 % (period * 1000) == 0
  {
  }

  /** A clock on a whole second, and a seal lag of one second to an hour exactly where counts are sealed. */
  lemma WindowsAreBuiltExactly(input: WindowInput)
    ensures BuildAdminReportWindow(input).Ok? <==>
              && -8_640_000_000_000_000 <= input.nowMs <= 8_640_000_000_000_000 && input.nowMs % 1000 == 0
              && (if input.deliveredConfigured
                  then input.sealLagSeconds.Some? && 1 <= input.sealLagSeconds.value <= 3_600
                  else input.sealLagSeconds.None? || input.sealLagSeconds.value == 0)
  {
    WindowIsLatestCompleted(input);
    hide BuildAdminReportWindow, IsLastBoundary;
  }
}
