/** What the run-time checks of the ledger come to: the rows of each state, new rows, and storage keys. */
module ImageJobShapes {
  import opened Outcomes
  import opened ImageJobPolicy
  import opened ImageJobEffects

  // ---------------------------------------------------------------------------------------------
  // Rows
  // ---------------------------------------------------------------------------------------------

  /** What tells the rows of one state from those of another. */
  datatype Shape = Shape(
    publication: PublicationState,
    compensation: CompensationState,
    isHeld: bool,
    mayWait: bool,
    isPublished: bool,
    isCondemned: bool)

  function ShapeOf(state: JobState): Shape {
    match state
    case Requested => Shape(PrivateOnly, NotRequired, false, false, false, false)
    case Queued => Shape(PrivateOnly, NotRequired, false, true, false, false)
    case Processing => Shape(PrivateOnly, NotRequired, true, false, false, false)
    case OutputReady => Shape(PrivateOnly, NotRequired, true, false, false, false)
    case Publishing => Shape(BeingPublished, NotRequired, true, false, false, false)
    case Ready => Shape(Published, NotRequired, false, false, true, false)
    case Failed => Shape(PrivateOnly, NotRequired, false, false, false, false)
    case CompensationRequired => Shape(Unknown, Required, false, true, false, true)
    case Compensating => Shape(Unknown, InProgress, true, false, false, true)
    case Compensated => Shape(Removed, Complete, false, false, false, true)
    case ManualReview => Shape(Unknown, Required, false, false, false, true)
  }

  predicate HasShape(job: ImageJob, shape: Shape) {
    && job.publicationState == shape.publication && job.compensationState == shape.compensation
    && (job.lease != None <==> shape.isHeld)
    && (job.nextAttemptAtMs != None ==> shape.mayWait)
    && (job.publishedAtMs != None <==> shape.isPublished) && (job.readyAtMs != None <==> shape.isPublished)
    && (shape.isPublished ==> job.resultSourceWidth != None && job.resultSourceHeight != None)
    && (shape.isCondemned ==> job.compensationRequestedAtMs != None)
  }

  /** The times among five. */
  function TimesIn(a: Option<int>, b: Option<int>, c: Option<int>, d: Option<int>, e: Option<int>): set<int> {
    set time: Option<int> | time in {a, b, c, d, e} && time.Some? :: time.value
  }

  /** Every time that a row may carry. */
  function TimesOf(job: ImageJob): set<int> {
    TimesIn(
      job.nextAttemptAtMs, job.firstAttemptAtMs, job.lastAttemptAtMs, job.lastCompensationAttemptAtMs,
      job.outputReadyAtMs)
    + TimesIn(
      job.publishedAtMs, job.readyAtMs, job.failedAtMs, job.compensationRequestedAtMs, job.compensatedAtMs)
  }

  /** A well-formed holder, a token of 32 digits, acquired no later than the row changed, for some time. */
  predicate IsHolding(lease: Lease, updatedAtMs: int) {
    && IsLeaseOwner(lease.owner) && IsHexText(lease.token, 32)
    && 0 <= lease.acquiredAtMs <= updatedAtMs && lease.acquiredAtMs < lease.expiresAtMs <= MAX_SAFE_INTEGER
  }

  predicate HasCounters(job: ImageJob) {
    && 0 <= job.version <= MAX_SAFE_INTEGER
    && 0 <= job.attemptCount <= job.request.maxAttempts
    && 0 <= job.compensationAttemptCount <= job.request.maxCompensationAttempts
    && (job.attemptCount == 0 <==> job.firstAttemptAtMs == None)
    && (job.attemptCount == 0 <==> job.lastAttemptAtMs == None)
    && (job.compensationAttemptCount == 0 <==> job.lastCompensationAttemptAtMs == None)
  }

  predicate HasTimes(job: ImageJob) {
    && 0 <= job.createdAtMs <= job.updatedAtMs <= MAX_SAFE_INTEGER
    && job.createdAtMs < job.request.ownershipExpiresAtMs
    && (forall t | t in TimesOf(job) :: job.createdAtMs <= t <= MAX_SAFE_INTEGER)
    && (job.nextAttemptAtMs != None ==> job.updatedAtMs <= job.nextAttemptAtMs.value)
  }

  predicate IsPictureSize(value: Option<int>) {
    value != None ==> 1 <= value.value <= 100_000
  }

  predicate IsEachAfter(job: ImageJob) {
    && IsTimeAfter(job.nextAttemptAtMs, job.createdAtMs) && IsTimeAfter(job.firstAttemptAtMs, job.createdAtMs)
    && IsTimeAfter(job.lastAttemptAtMs, job.createdAtMs)
    && IsTimeAfter(job.lastCompensationAttemptAtMs, job.createdAtMs)
    && IsTimeAfter(job.outputReadyAtMs, job.createdAtMs) && IsTimeAfter(job.publishedAtMs, job.createdAtMs)
    && IsTimeAfter(job.readyAtMs, job.createdAtMs) && IsTimeAfter(job.failedAtMs, job.createdAtMs)
    && IsTimeAfter(job.compensationRequestedAtMs, job.createdAtMs) && IsTimeAfter(job.compensatedAtMs, job.createdAtMs)
  }

  lemma FiveAreAfter(
    a: Option<int>, b: Option<int>, c: Option<int>, d: Option<int>, e: Option<int>, minimum: int)
    requires 0 <= minimum
    ensures (forall t | t in TimesIn(a, b, c, d, e) :: minimum <= t <= MAX_SAFE_INTEGER)
            <==> IsTimeAfter(a, minimum) && IsTimeAfter(b, minimum) && IsTimeAfter(c, minimum)
                 && IsTimeAfter(d, minimum) && IsTimeAfter(e, minimum)
  {
    forall time | time in {a, b, c, d, e} && time.Some?
      ensures time.value in TimesIn(a, b, c, d, e)
    {
    }
  }

  lemma TimesAreEach(job: ImageJob)
    requires 0 <= job.createdAtMs
    ensures (forall t | t in TimesOf(job) :: job.createdAtMs <= t <= MAX_SAFE_INTEGER) <==> IsEachAfter(job)
  {
    hide TimesIn, IsTimeAfter;
    var early := TimesIn(
      job.nextAttemptAtMs, job.firstAttemptAtMs, job.lastAttemptAtMs, job.lastCompensationAttemptAtMs,
      job.outputReadyAtMs);
    var late := TimesIn(
      job.publishedAtMs, job.readyAtMs, job.failedAtMs, job.compensationRequestedAtMs, job.compensatedAtMs);
    FiveAreAfter(
      job.nextAttemptAtMs, job.firstAttemptAtMs, job.lastAttemptAtMs, job.lastCompensationAttemptAtMs,
      job.outputReadyAtMs, job.createdAtMs);
    FiveAreAfter(
      job.publishedAtMs, job.readyAtMs, job.failedAtMs, job.compensationRequestedAtMs, job.compensatedAtMs,
      job.createdAtMs);
    assert forall t | t in early || t in late :: t in TimesOf(job);
  }

  /** The run-time check without what every state has in common. */
  predicate PassesByState(job: ImageJob) {
    && job.publicationState == PublicationShape(job.state)
    && job.compensationState == CompensationShape(job.state)
    && HoldsLease(job.state) == job.lease.Some?
    && (job.nextAttemptAtMs.Some? ==> job.state.Queued? || job.state.CompensationRequired?)
    && (if job.state.Ready?
        then job.publishedAtMs.Some? && job.readyAtMs.Some? && job.resultSourceWidth.Some?
             && job.resultSourceHeight.Some?
        else job.publishedAtMs.None? && job.readyAtMs.None?)
    && (InCompensation(job.state) ==> job.compensationRequestedAtMs.Some?)
  }

  lemma ShapesAreStates(job: ImageJob)
    ensures HasShape(job, ShapeOf(job.state)) <==> PassesByState(job)
  {
  }

  /**
   The run-time check, told by states: it passes exactly the rows of a good request that have their state's
   shape, whose counters and times agree with each other, and whose lease, sizes and code are well-formed.
   */
  lemma CheckIsShape(job: ImageJob)
    ensures IsValid(job) <==>
              && IsRequest(job.request) && HasShape(job, ShapeOf(job.state)) && HasCounters(job) && HasTimes(job)
              && (job.lease != None ==> IsHolding(job.lease.value, job.updatedAtMs))
              && (job.resultSourceWidth == None <==> job.resultSourceHeight == None)
              && IsPictureSize(job.resultSourceWidth) && IsPictureSize(job.resultSourceHeight)
              && (job.compensatedAtMs != None <==> job.state == Compensated)
              && (job.lastErrorCode != None ==> IsErrorCode(job.lastErrorCode.value))
  {
    ShapesAreStates(job);
    if 0 <= job.createdAtMs {
      TimesAreEach(job);
    }
    RequestIsBounded(job.request);
    hide IsErrorCode, IsLeaseOwner, IsHexText, IsRequest, HasShape, ShapeOf, PublicationShape, CompensationShape,
         TimesOf, IsTimeAfter;
  }

  /** A request gets a row exactly when its fields are well-formed and it is made before its ownership ends. */
  lemma CreationIsExact(input: NewImageJob, atMs: int)
    ensures CreateImageJob(input, atMs).Ok? <==> IsRequest(input) && 0 <= atMs < input.ownershipExpiresAtMs
  {
    RequestIsBounded(input);
    hide IsRequest;
  }

  lemma RequestIsBounded(input: NewImageJob)
    ensures IsRequest(input) ==>
              && 1 <= input.maxAttempts <= 20 && 1 <= input.maxCompensationAttempts <= 20
              && 0 <= input.ownershipExpiresAtMs <= MAX_SAFE_INTEGER
  {
  }

  /**
   A failure is compensated exactly when the row was publishing or may have published. Otherwise the private
   files must be gone, and the row waits for a retry when one is asked for and attempts are left, or fails.
   */
  lemma FailureOutcome(job: ImageJob, c: Command)
    requires IsSound(job) && c.action.RecordFailure? && Transition(job, c).Ok?
    ensures var next, a := Transition(job, c).value, c.action;
            var mayBePublic := job.state == Publishing || a.publicationMayHaveOccurred;
            var dueMs := if a.failureRetryAtMs == None then c.atMs else a.failureRetryAtMs.value;
            && (next.state == CompensationRequired <==> mayBePublic)
            && (next.state == Queued <==>
                  !mayBePublic && a.failureRetryAtMs != None && job.attemptCount < job.request.maxAttempts)
            && (next.state in {CompensationRequired, Queued, Failed})
            && (!mayBePublic ==> a.privateOutputRemoved)
            && next.lease == None && next.lastErrorCode == Some(a.errorCode)
            && next.nextAttemptAtMs
               == (if next.state == Failed then None else Some(if dueMs < c.atMs then c.atMs else dueMs))
            && next.attemptCount == job.attemptCount
  {
    hide IsRequest, IsErrorCode, IsHexText, IsLeaseOwner, IsSound;
  }

  // ---------------------------------------------------------------------------------------------
  // Texts
  // ---------------------------------------------------------------------------------------------

  const CAPITALS := "ABCDEFGHIJKLMNOPQRSTUVWXYZ"
  const SMALL := "abcdefghijklmnopqrstuvwxyz"
  const DIGITS := "0123456789"

  /** Between `least` and `most` characters of one alphabet. */
  predicate IsTextOver(s: string, alphabet: string, least: nat, most: nat) {
    least <= |s| <= most && forall c | c in s :: c in alphabet
  }

  lemma CapitalsAreRange(c: char)
    ensures c in CAPITALS <==> 'A' <= c <= 'Z'
  {
    if 'A' <= c <= 'Z' {
      assert CAPITALS[c as int - 'A' as int] == c;
    }
  }

  lemma SmallAreRange(c: char)
    ensures c in SMALL <==> 'a' <= c <= 'z'
  {
    if 'a' <= c <= 'z' {
      assert SMALL[c as int - 'a' as int] == c;
    }
  }

  lemma DigitsAreRange(c: char)
    ensures c in DIGITS <==> '0' <= c <= '9'
  {
  }

  lemma RangesOf(c: char)
    ensures c in CAPITALS + DIGITS + "_" <==> 'A' <= c <= 'Z' || '0' <= c <= '9' || c == '_'
    ensures c in CAPITALS + SMALL + DIGITS + "_.:@-" <==> IsAlphanumeric(c) || c in "_.:@-"
    ensures c in DIGITS + "abcdef" <==> IsLowerHex(c)
  {
    hide CAPITALS, SMALL, DIGITS;
    CapitalsAreRange(c);
    SmallAreRange(c);
    DigitsAreRange(c);
  }

  /** The texts of a row: error codes, holders and identifiers. */
  lemma TextsAreExact(s: string, length: nat)
    ensures IsErrorCode(s) <==> IsTextOver(s, CAPITALS + DIGITS + "_", 1, 64) && s[0] in CAPITALS
    ensures IsLeaseOwner(s) <==> IsTextOver(s, CAPITALS + SMALL + DIGITS + "_.:@-", 1, 128)
    ensures IsHexText(s, length) <==> IsTextOver(s, DIGITS + "abcdef", length, length)
  {
    hide CAPITALS, SMALL, DIGITS;
    if s != "" {
      CapitalsAreRange(s[0]);
    }
    forall c | c in s
      ensures c in CAPITALS + DIGITS + "_" <==> 'A' <= c <= 'Z' || '0' <= c <= '9' || c == '_'
      ensures c in CAPITALS + SMALL + DIGITS + "_.:@-" <==> IsAlphanumeric(c) || c in "_.:@-"
      ensures c in DIGITS + "abcdef" <==> IsLowerHex(c)
    {
      RangesOf(c);
    }
    assert forall i | 0 <= i < |s| :: s[i] in s;
  }

  // ---------------------------------------------------------------------------------------------
  // Storage keys
  // ---------------------------------------------------------------------------------------------

  /** `part` stands between two separators, or between one and an end of the key. */
  predicate IsSegment(key: string, before: string, part: string, after: string) {
    && key == before + part + after
    && (before == "" || before[|before| - 1] == '/')
    && (after == "" || after[0] == '/')
  }

  /**
   A storage key names a file below its directory: it is relative, it never steps up or stays, it has no
   empty step, and it holds no character that a path treats specially.
   */
  lemma StorageKeysStayInside(key: string)
    requires IsStorageKey(key)
    ensures 1 <= |key| <= 255
    ensures key[0] != '/' && '\\' !in key && '\0' !in key && ':' !in key && ' ' !in key
    ensures forall before, after :: !IsSegment(key, before, "..", after) && !IsSegment(key, before, ".", after)
    ensures forall i | 0 < i < |key| :: key[i - 1] != '/' || key[i] != '/'
  {
    forall before: string, after: string
      ensures !IsSegment(key, before, "..", after) && !IsSegment(key, before, ".", after)
    {
      SegmentIsNamed(key, before, "..", after);
      SegmentIsNamed(key, before, ".", after);
    }
  }

  lemma SegmentIsNamed(key: string, before: string, part: string, after: string)
    requires IsStorageKey(key) && '/' !in part
    ensures IsSegment(key, before, part, after) ==> part != ".." && part != "."
  {
    var i, j := |before|, |before| + |part|;
    if IsSegment(key, before, part, after) {
      assert key[i..j] == part;
      assert SegmentAt(key, i, j);
    }
  }
}
