/**
 The durable image-job ledger policy: one row, fourteen versioned commands, a restart planner.
 Every function here follows src/modules/uploads/job-ledger-policy.ts; a thrown ImageJobPolicyError
 is an `Err`. The fields that a job copies unchanged from its request stay together in `NewImageJob`.
 */
module ImageJobPolicy {
  import opened Outcomes

  const MAX_DIMENSION: int := 100_000

  datatype JobState =
    | Requested
    | Queued
    | Processing
    | OutputReady
    | Publishing
    | Ready
    | Failed
    | CompensationRequired
    | Compensating
    | Compensated
    | ManualReview

  datatype PublicationState = PrivateOnly | BeingPublished | Published | Unknown | Removed
  datatype CompensationState = NotRequired | Required | InProgress | Complete

  datatype Lease = Lease(owner: string, token: string, acquiredAtMs: int, expiresAtMs: int)

  datatype NewImageJob = NewImageJob(
    jobId: string,
    requestKey: string,
    payloadHash: string,
    domainId: int,
    userId: int,
    sessionScopeHash: string,
    ownershipExpiresAtMs: int,
    inputStorageKey: string,
    outputStorageKey: string,
    maxAttempts: int,
    maxCompensationAttempts: int)

  datatype ImageJob = ImageJob(
    request: NewImageJob,
    state: JobState,
    publicationState: PublicationState,
    compensationState: CompensationState,
    version: int,
    attemptCount: int,
    compensationAttemptCount: int,
    nextAttemptAtMs: Option<int>,
    firstAttemptAtMs: Option<int>,
    lastAttemptAtMs: Option<int>,
    lastCompensationAttemptAtMs: Option<int>,
    lease: Option<Lease>,
    outputReadyAtMs: Option<int>,
    resultSourceWidth: Option<int>,
    resultSourceHeight: Option<int>,
    publishedAtMs: Option<int>,
    readyAtMs: Option<int>,
    failedAtMs: Option<int>,
    compensationRequestedAtMs: Option<int>,
    compensatedAtMs: Option<int>,
    lastErrorCode: Option<string>,
    createdAtMs: int,
    updatedAtMs: int)

  datatype Action =
    | Enqueue(notBeforeMs: int)
    | ClaimProcessing(leaseOwner: string, leaseToken: string, leaseExpiresAtMs: int)
    | RecordOutputReady(leaseToken: string, sourceWidth: int, sourceHeight: int)
    | BeginPublication(leaseToken: string)
    | MarkReady(leaseToken: string, finalArtifactPublished: bool, readyRegistrationCommitted: bool)
    | RecordFailure(
        leaseToken: string,
        errorCode: string,
        publicationMayHaveOccurred: bool,
        privateOutputRemoved: bool,
        failureRetryAtMs: Option<int>)
    | RecoverReady(finalArtifactPublished: bool, readyRegistrationCommitted: bool)
    | RecoverRetry(
        finalArtifactAbsent: bool,
        readyRegistrationAbsent: bool,
        privateOutputRemoved: bool,
        retryAtMs: int,
        errorCode: string)
    | RequireCompensation(errorCode: string, retryAtMs: int)
    | ClaimCompensation(leaseOwner: string, leaseToken: string, leaseExpiresAtMs: int)
    | MarkCompensated(leaseToken: string, finalArtifactAbsent: bool, readyRegistrationAbsent: bool)
    | RecoverCompensated(finalArtifactAbsent: bool, readyRegistrationAbsent: bool)
    | RecordCompensationFailure(leaseToken: string, errorCode: string, retryAtMs: int)
    | MarkManualReview(errorCode: string)

  datatype Command = Command(expectedVersion: int, atMs: int, action: Action)

  datatype PolicyError =
    | InvalidJob
    | RequestKeyConflict
    | JobIdConflict
    | IdentitySplitBrain
    | IllegalTransition
    | StaleVersion
    | StaleTimestamp
    | StaleLease
    | LiveLease
    | NotDue
    | AttemptsExhausted
    | ProofRequired

  // ---------------------------------------------------------------------------------------------
  // Field shapes
  // ---------------------------------------------------------------------------------------------

  predicate IsEpoch(value: int) {
    0 <= value <= MAX_SAFE_INTEGER
  }

  predicate IsPositive(value: int) {
    0 < value <= MAX_SAFE_INTEGER
  }

  predicate IsLowerHex(c: char) {
    '0' <= c <= '9' || 'a' <= c <= 'f'
  }

  predicate IsHexText(s: string, length: nat) {
    |s| == length && forall i :: 0 <= i < |s| ==> IsLowerHex(s[i])
  }

  predicate IsAlphanumeric(c: char) {
    'A' <= c <= 'Z' || 'a' <= c <= 'z' || '0' <= c <= '9'
  }

  /** A leading alphanumeric, at most 255 path characters, no empty, `.` or `..` segment. */
  predicate IsStorageKey(s: string) {
    && 1 <= |s| <= 255
    && IsAlphanumeric(s[0])
    && (forall i :: 0 <= i < |s| ==> IsAlphanumeric(s[i]) || s[i] in "._/-")
    && (forall i :: 0 < i < |s| ==> !(s[i - 1] == '/' && s[i] == '/'))
    && (forall i, j | 0 <= i <= j <= |s| && SegmentAt(s, i, j) :: s[i..j] != "." && s[i..j] != "..")
  }

  /** `s[i..j]` is one of the segments of `s.split("/")`. */
  predicate SegmentAt(s: string, i: nat, j: nat)
    requires i <= j <= |s|
  {
    && (i == 0 || s[i - 1] == '/')
    && (j == |s| || s[j] == '/')
    && '/' !in s[i..j]
  }

  predicate IsLeaseOwner(s: string) {
    1 <= |s| <= 128 && forall i :: 0 <= i < |s| ==> IsAlphanumeric(s[i]) || s[i] in "_.:@-"
  }

  predicate IsErrorCode(s: string) {
    && 1 <= |s| <= 64
    && 'A' <= s[0] <= 'Z'
    && forall i :: 0 <= i < |s| ==> 'A' <= s[i] <= 'Z' || '0' <= s[i] <= '9' || s[i] == '_'
  }

  predicate IsBoundedAttempts(count: int, maximum: int) {
    0 <= count <= maximum && 1 <= maximum <= 20
  }

  predicate IsLease(lease: Lease, referenceMs: int, requireFuture: bool) {
    && IsLeaseOwner(lease.owner)
    && IsHexText(lease.token, 32)
    && IsEpoch(lease.acquiredAtMs)
    && IsEpoch(lease.expiresAtMs)
    && lease.acquiredAtMs <= referenceMs
    && lease.acquiredAtMs < lease.expiresAtMs
    && (requireFuture ==> referenceMs < lease.expiresAtMs)
  }

  /** The identity fields, which no command changes. */
  predicate IsRequest(r: NewImageJob) {
    && IsHexText(r.jobId, 32)
    && IsHexText(r.requestKey, 64)
    && IsHexText(r.payloadHash, 64)
    && IsHexText(r.sessionScopeHash, 64)
    && IsPositive(r.domainId)
    && IsPositive(r.userId)
    && IsStorageKey(r.inputStorageKey)
    && IsStorageKey(r.outputStorageKey)
    && 1 <= r.maxAttempts <= 20
    && 1 <= r.maxCompensationAttempts <= 20
    && IsEpoch(r.ownershipExpiresAtMs)
  }

  // ---------------------------------------------------------------------------------------------
  // The run-time invariant check
  // ---------------------------------------------------------------------------------------------

  function PublicationShape(state: JobState): PublicationState {
    match state
    case Publishing => BeingPublished
    case Ready => Published
    case CompensationRequired => Unknown
    case Compensating => Unknown
    case ManualReview => Unknown
    case Compensated => Removed
    case _ => PrivateOnly
  }

  function CompensationShape(state: JobState): CompensationState {
    match state
    case CompensationRequired => Required
    case ManualReview => Required
    case Compensating => InProgress
    case Compensated => Complete
    case _ => NotRequired
  }

  predicate HoldsLease(state: JobState) {
    state.Processing? || state.OutputReady? || state.Publishing? || state.Compensating?
  }

  /** The states that a row can never leave towards publication. */
  predicate InCompensation(state: JobState) {
    state.CompensationRequired? || state.Compensating? || state.Compensated? || state.ManualReview?
  }

  predicate IsTimeAfter(time: Option<int>, createdAtMs: int) {
    time.Some? ==> IsEpoch(time.value) && createdAtMs <= time.value
  }

  predicate IsDimension(value: Option<int>) {
    value.Some? ==> 0 < value.value <= MAX_DIMENSION
  }

  /** assertImageJobInvariant; every one of its failures carries the code INVALID_JOB. */
  predicate IsValid(job: ImageJob) {
    && IsRequest(job.request)
    && IsEpoch(job.version)
    && IsBoundedAttempts(job.attemptCount, job.request.maxAttempts)
    && IsBoundedAttempts(job.compensationAttemptCount, job.request.maxCompensationAttempts)
    && IsEpoch(job.createdAtMs)
    && IsEpoch(job.updatedAtMs)
    && job.createdAtMs <= job.updatedAtMs
    && job.createdAtMs < job.request.ownershipExpiresAtMs
    && job.publicationState == PublicationShape(job.state)
    && job.compensationState == CompensationShape(job.state)
    && HoldsLease(job.state) == job.lease.Some?
    && (job.lease.Some? ==> IsLease(job.lease.value, job.updatedAtMs, false))
    && (job.nextAttemptAtMs.Some? ==> job.state.Queued? || job.state.CompensationRequired?)
    && IsTimeAfter(job.nextAttemptAtMs, job.createdAtMs)
    && IsTimeAfter(job.firstAttemptAtMs, job.createdAtMs)
    && IsTimeAfter(job.lastAttemptAtMs, job.createdAtMs)
    && IsTimeAfter(job.lastCompensationAttemptAtMs, job.createdAtMs)
    && IsTimeAfter(job.outputReadyAtMs, job.createdAtMs)
    && IsTimeAfter(job.publishedAtMs, job.createdAtMs)
    && IsTimeAfter(job.readyAtMs, job.createdAtMs)
    && IsTimeAfter(job.failedAtMs, job.createdAtMs)
    && IsTimeAfter(job.compensationRequestedAtMs, job.createdAtMs)
    && IsTimeAfter(job.compensatedAtMs, job.createdAtMs)
    && (job.nextAttemptAtMs.Some? ==> job.updatedAtMs <= job.nextAttemptAtMs.value)
    && (if job.state.Ready?
        then job.publishedAtMs.Some? && job.readyAtMs.Some? && job.resultSourceWidth.Some?
             && job.resultSourceHeight.Some?
        else job.publishedAtMs.None? && job.readyAtMs.None?)
    && job.resultSourceWidth.None? == job.resultSourceHeight.None?
    && IsDimension(job.resultSourceWidth)
    && IsDimension(job.resultSourceHeight)
    && job.state.Compensated? == job.compensatedAtMs.Some?
    && (if job.attemptCount == 0
        then job.firstAttemptAtMs.None? && job.lastAttemptAtMs.None?
        else job.firstAttemptAtMs.Some? && job.lastAttemptAtMs.Some?)
    && (job.compensationAttemptCount == 0) == job.lastCompensationAttemptAtMs.None?
    && (InCompensation(job.state) ==> job.compensationRequestedAtMs.Some?)
    && (job.lastErrorCode.Some? ==> IsErrorCode(job.lastErrorCode.value))
  }

  // ---------------------------------------------------------------------------------------------
  // Creation
  // ---------------------------------------------------------------------------------------------

  /** The row that a fresh request would start from. */
  function InitialJob(input: NewImageJob, atMs: int): ImageJob {
    ImageJob(
      input, Requested, PrivateOnly, NotRequired, 0, 0, 0,
      None, None, None, None, None, None, None, None, None, None, None, None, None, None,
      atMs, atMs)
  }

  function CreateImageJob(input: NewImageJob, atMs: int): Result<ImageJob, PolicyError> {
    var job := InitialJob(input, atMs);
    if IsEpoch(atMs) && IsValid(job) then Ok(job) else Err(InvalidJob)
  }

  datatype Creation = Create(job: ImageJob) | Reuse(job: ImageJob)

  predicate IsSameRequest(existing: NewImageJob, proposal: NewImageJob) {
    && existing.requestKey == proposal.requestKey
    && existing.payloadHash == proposal.payloadHash
    && existing.domainId == proposal.domainId
    && existing.userId == proposal.userId
    && existing.sessionScopeHash == proposal.sessionScopeHash
  }

  function DecideImageJobCreation(
    proposal: NewImageJob, byRequestKey: Option<ImageJob>, byJobId: Option<ImageJob>, atMs: int)
    : Result<Creation, PolicyError>
  {
    var created :- CreateImageJob(proposal, atMs);
    :- Require(
         !(byRequestKey.Some? && byJobId.Some?
           && byRequestKey.value.request.jobId != byJobId.value.request.jobId),
         IdentitySplitBrain);
    if byRequestKey.Some? then
      :- Require(IsValid(byRequestKey.value), InvalidJob);
      :- Require(IsSameRequest(byRequestKey.value.request, proposal), RequestKeyConflict);
      Ok(Reuse(byRequestKey.value))
    else if byJobId.Some? then
      :- Require(IsValid(byJobId.value), InvalidJob);
      :- Require(byJobId.value.request.requestKey == proposal.requestKey, JobIdConflict);
      :- Require(IsSameRequest(byJobId.value.request, proposal), RequestKeyConflict);
      Ok(Reuse(byJobId.value))
    else
      Ok(Create(created))
  }

  // ---------------------------------------------------------------------------------------------
  // Transitions
  // ---------------------------------------------------------------------------------------------

  /** The bookkeeping that every accepted command shares. */
  function Advance(job: ImageJob, c: Command): ImageJob {
    job.(version := job.version + 1, updatedAtMs := c.atMs)
  }

  function Max(a: int, b: int): int {
    if a < b then b else a
  }

  function FutureOrNow(value: int, nowMs: int): Result<int, PolicyError> {
    if IsEpoch(value) then Ok(Max(value, nowMs)) else Err(InvalidJob)
  }

  function RequireState(job: ImageJob, expected: JobState): Guard<PolicyError> {
    Require(job.state == expected, IllegalTransition)
  }

  function RequireWorking(job: ImageJob): Guard<PolicyError> {
    Require(job.state.Processing? || job.state.OutputReady? || job.state.Publishing?, IllegalTransition)
  }

  function RequireHolder(job: ImageJob, token: string, atMs: int): Guard<PolicyError> {
    Require(
      job.lease.Some? && job.lease.value.token == token && atMs < job.lease.value.expiresAtMs,
      StaleLease)
  }

  function RequireExpired(job: ImageJob, atMs: int): Guard<PolicyError> {
    if job.lease.None? then Blocked(StaleLease)
    else Require(job.lease.value.expiresAtMs <= atMs, LiveLease)
  }

  predicate HasLiveLease(job: ImageJob, nowMs: int) {
    job.lease.Some? && nowMs < job.lease.value.expiresAtMs
  }

  predicate IsDue(job: ImageJob, atMs: int) {
    job.nextAttemptAtMs.Some? ==> job.nextAttemptAtMs.value <= atMs
  }

  function MakeLease(owner: string, token: string, expiresAtMs: int, atMs: int): Result<Lease, PolicyError> {
    var lease := Lease(owner, token, atMs, expiresAtMs);
    :- Require(IsLease(lease, atMs, true), InvalidJob);
    Ok(lease)
  }

  function ToCompensationRequired(job: ImageJob, c: Command, errorCode: string, retryAtMs: int)
    : Result<ImageJob, PolicyError>
  {
    var next :- FutureOrNow(retryAtMs, c.atMs);
    Ok(Advance(job, c).(
         state := CompensationRequired,
         publicationState := Unknown,
         compensationState := Required,
         lease := None,
         nextAttemptAtMs := Some(next),
         compensationRequestedAtMs := Some(job.compensationRequestedAtMs.GetOr(c.atMs)),
         lastErrorCode := Some(errorCode)))
  }

  function ToFailed(job: ImageJob, c: Command, errorCode: string): ImageJob {
    Advance(job, c).(
      state := Failed,
      publicationState := PrivateOnly,
      lease := None,
      nextAttemptAtMs := None,
      failedAtMs := Some(c.atMs),
      lastErrorCode := Some(errorCode))
  }

  function ToQueued(job: ImageJob, c: Command, errorCode: string, retryAtMs: int)
    : Result<ImageJob, PolicyError>
  {
    var next :- FutureOrNow(retryAtMs, c.atMs);
    Ok(Advance(job, c).(
         state := Queued,
         publicationState := PrivateOnly,
         lease := None,
         nextAttemptAtMs := Some(next),
         lastErrorCode := Some(errorCode)))
  }

  function ToReady(job: ImageJob, c: Command): ImageJob {
    Advance(job, c).(
      state := Ready,
      publicationState := Published,
      lease := None,
      publishedAtMs := Some(c.atMs),
      readyAtMs := Some(c.atMs))
  }

  function ToCompensated(job: ImageJob, c: Command): ImageJob {
    Advance(job, c).(
      state := Compensated,
      publicationState := Removed,
      compensationState := Complete,
      lease := None,
      compensatedAtMs := Some(c.atMs))
  }

  function RecordFailureResult(job: ImageJob, c: Command): Result<ImageJob, PolicyError>
    requires c.action.RecordFailure?
  {
    var a := c.action;
    :- RequireWorking(job);
    :- RequireHolder(job, a.leaseToken, c.atMs);
    :- Require(IsErrorCode(a.errorCode), InvalidJob);
    if job.state.Publishing? || a.publicationMayHaveOccurred then
      ToCompensationRequired(job, c, a.errorCode, a.failureRetryAtMs.GetOr(c.atMs))
    else
      :- Require(a.privateOutputRemoved, ProofRequired);
      if job.attemptCount < job.request.maxAttempts && a.failureRetryAtMs.Some? then
        ToQueued(job, c, a.errorCode, a.failureRetryAtMs.value)
      else
        Ok(ToFailed(job, c, a.errorCode))
  }

  function RecordCompensationFailureResult(job: ImageJob, c: Command): Result<ImageJob, PolicyError>
    requires c.action.RecordCompensationFailure?
  {
    var a := c.action;
    :- RequireState(job, Compensating);
    :- RequireHolder(job, a.leaseToken, c.atMs);
    :- Require(IsErrorCode(a.errorCode), InvalidJob);
    if job.compensationAttemptCount < job.request.maxCompensationAttempts then
      var next :- FutureOrNow(a.retryAtMs, c.atMs);
      Ok(Advance(job, c).(
           state := CompensationRequired,
           compensationState := Required,
           lease := None,
           nextAttemptAtMs := Some(next),
           lastErrorCode := Some(a.errorCode)))
    else
      Ok(Advance(job, c).(
           state := ManualReview,
           compensationState := Required,
           lease := None,
           nextAttemptAtMs := None,
           lastErrorCode := Some(a.errorCode)))
  }

  /** The switch of transitionImageJob, between the two invariant checks. */
  function Apply(job: ImageJob, c: Command): Result<ImageJob, PolicyError> {
    match c.action
    case Enqueue(notBeforeMs) =>
      :- RequireState(job, Requested);
      :- Require(IsEpoch(notBeforeMs), InvalidJob);
      :- Require(c.atMs <= notBeforeMs, StaleTimestamp);
      Ok(Advance(job, c).(state := Queued, nextAttemptAtMs := Some(notBeforeMs)))
    case ClaimProcessing(owner, token, expiresAtMs) =>
      :- RequireState(job, Queued);
      :- Require(IsDue(job, c.atMs), NotDue);
      :- Require(job.attemptCount < job.request.maxAttempts, AttemptsExhausted);
      var lease :- MakeLease(owner, token, expiresAtMs, c.atMs);
      Ok(Advance(job, c).(
           state := Processing,
           attemptCount := job.attemptCount + 1,
           firstAttemptAtMs := Some(job.firstAttemptAtMs.GetOr(c.atMs)),
           lastAttemptAtMs := Some(c.atMs),
           nextAttemptAtMs := None,
           lease := Some(lease)))
    case RecordOutputReady(token, width, height) =>
      :- RequireState(job, Processing);
      :- RequireHolder(job, token, c.atMs);
      :- Require(0 < width <= MAX_DIMENSION && 0 < height <= MAX_DIMENSION, ProofRequired);
      Ok(Advance(job, c).(
           state := OutputReady,
           outputReadyAtMs := Some(c.atMs),
           resultSourceWidth := Some(width),
           resultSourceHeight := Some(height)))
    case BeginPublication(token) =>
      :- RequireState(job, OutputReady);
      :- RequireHolder(job, token, c.atMs);
      Ok(Advance(job, c).(state := Publishing, publicationState := BeingPublished))
    case MarkReady(token, published, committed) =>
      :- RequireState(job, Publishing);
      :- RequireHolder(job, token, c.atMs);
      :- Require(published && committed, ProofRequired);
      Ok(ToReady(job, c))
    case RecordFailure(_, _, _, _, _) =>
      RecordFailureResult(job, c)
    case RecoverReady(published, committed) =>
      :- RequireState(job, Publishing);
      :- RequireExpired(job, c.atMs);
      :- Require(published && committed, ProofRequired);
      Ok(ToReady(job, c))
    case RecoverRetry(finalAbsent, registrationAbsent, privateRemoved, retryAtMs, errorCode) =>
      :- RequireWorking(job);
      :- RequireExpired(job, c.atMs);
      :- Require(finalAbsent && registrationAbsent && privateRemoved, ProofRequired);
      :- Require(IsErrorCode(errorCode), InvalidJob);
      if job.attemptCount < job.request.maxAttempts
      then ToQueued(job, c, errorCode, retryAtMs)
      else Ok(ToFailed(job, c, errorCode))
    case RequireCompensation(errorCode, retryAtMs) =>
      :- Require(!job.state.Ready? && !job.state.Compensated?, IllegalTransition);
      :- Require(!HasLiveLease(job, c.atMs), LiveLease);
      :- Require(IsErrorCode(errorCode), InvalidJob);
      ToCompensationRequired(job, c, errorCode, retryAtMs)
    case ClaimCompensation(owner, token, expiresAtMs) =>
      :- RequireState(job, CompensationRequired);
      :- Require(IsDue(job, c.atMs), NotDue);
      :- Require(job.compensationAttemptCount < job.request.maxCompensationAttempts, AttemptsExhausted);
      var lease :- MakeLease(owner, token, expiresAtMs, c.atMs);
      Ok(Advance(job, c).(
           state := Compensating,
           compensationState := InProgress,
           compensationAttemptCount := job.compensationAttemptCount + 1,
           lastCompensationAttemptAtMs := Some(c.atMs),
           nextAttemptAtMs := None,
           lease := Some(lease)))
    case MarkCompensated(token, finalAbsent, registrationAbsent) =>
      :- RequireState(job, Compensating);
      :- RequireHolder(job, token, c.atMs);
      :- Require(finalAbsent && registrationAbsent, ProofRequired);
      Ok(ToCompensated(job, c))
    case RecoverCompensated(finalAbsent, registrationAbsent) =>
      :- RequireState(job, Compensating);
      :- RequireExpired(job, c.atMs);
      :- Require(finalAbsent && registrationAbsent, ProofRequired);
      Ok(ToCompensated(job, c))
    case RecordCompensationFailure(_, _, _) =>
      RecordCompensationFailureResult(job, c)
    case MarkManualReview(errorCode) =>
      :- Require(!job.state.Ready? && !job.state.Compensated?, IllegalTransition);
      :- Require(!HasLiveLease(job, c.atMs), LiveLease);
      :- Require(IsErrorCode(errorCode), InvalidJob);
      Ok(Advance(job, c).(
           state := ManualReview,
           publicationState := Unknown,
           compensationState := Required,
           lease := None,
           nextAttemptAtMs := None,
           compensationRequestedAtMs := Some(job.compensationRequestedAtMs.GetOr(c.atMs)),
           lastErrorCode := Some(errorCode)))
  }

  /** assertCommandFresh. */
  function RequireFresh(job: ImageJob, c: Command): Guard<PolicyError> {
    if c.expectedVersion != job.version then Blocked(StaleVersion)
    else if !IsEpoch(c.atMs) then Blocked(InvalidJob)
    else Require(job.updatedAtMs <= c.atMs, StaleTimestamp)
  }

  /** transitionImageJob. */
  function Transition(job: ImageJob, c: Command): Result<ImageJob, PolicyError> {
    if !IsValid(job) then Err(InvalidJob)
    else
      :- RequireFresh(job, c);
      var next :- Apply(job, c);
      if IsValid(next) then Ok(next) else Err(InvalidJob)
  }

  /** isImageJobAttachable, which throws on an invalid row. */
  function IsAttachable(job: ImageJob): Result<bool, PolicyError> {
    if !IsValid(job) then Err(InvalidJob)
    else
      Ok(job.state.Ready?
         && job.publicationState.Published?
         && job.compensationState.NotRequired?
         && job.readyAtMs.Some?
         && job.resultSourceWidth.Some?
         && job.resultSourceHeight.Some?)
  }

  // ---------------------------------------------------------------------------------------------
  // The restart planner and the recovery selection
  // ---------------------------------------------------------------------------------------------

  datatype Observation = Present | Absent | Unobservable

  datatype Evidence = Evidence(
    finalArtifact: Observation, privateArtifact: Observation, readyRegistration: Observation)

  datatype RestartAction =
    | NoAction
    | DoEnqueue
    | WaitUntilDue
    | DoClaimProcessing
    | WaitForLease
    | DoRecoverReady
    | CleanPrivateThenRecoverRetry
    | DoRequireCompensation
    | DoClaimCompensation
    | DoRecoverCompensated
    | CleanPrivate
    | DoManualReview

  predicate IsIntact(e: Evidence) {
    e.finalArtifact.Present? && e.readyRegistration.Present?
  }

  predicate IsGone(e: Evidence) {
    e.finalArtifact.Absent? && e.readyRegistration.Absent?
  }

  /** planImageJobRestart; the human-readable reason is not modelled. */
  function PlanRestart(job: ImageJob, e: Evidence, nowMs: int): Result<RestartAction, PolicyError> {
    if !IsValid(job) || !IsEpoch(nowMs) then Err(InvalidJob)
    else if nowMs < job.updatedAtMs then Err(StaleTimestamp)
    else Ok(PlanState(job, e, nowMs))
  }

  function PlanState(job: ImageJob, e: Evidence, nowMs: int): RestartAction {
    match job.state
    case Requested => DoEnqueue
    case Queued => if IsDue(job, nowMs) then DoClaimProcessing else WaitUntilDue
    case Processing => PlanWorking(job, e, nowMs)
    case OutputReady => PlanWorking(job, e, nowMs)
    case Publishing =>
      if HasLiveLease(job, nowMs) then WaitForLease
      else if IsIntact(e) then DoRecoverReady
      else if IsGone(e) && !e.privateArtifact.Unobservable? then CleanPrivateThenRecoverRetry
      else DoRequireCompensation
    case Ready => if IsIntact(e) then NoAction else DoManualReview
    case Failed =>
      if !IsGone(e) then DoRequireCompensation
      else (match e.privateArtifact
            case Present => CleanPrivate
            case Unobservable => DoManualReview
            case Absent => NoAction)
    case CompensationRequired => if IsDue(job, nowMs) then DoClaimCompensation else WaitUntilDue
    case Compensating =>
      if HasLiveLease(job, nowMs) then WaitForLease
      else if IsGone(e) then DoRecoverCompensated
      else if job.compensationAttemptCount < job.request.maxCompensationAttempts
      then DoRequireCompensation
      else DoManualReview
    case Compensated => if IsGone(e) then NoAction else DoManualReview
    case ManualReview => DoManualReview
  }

  function PlanWorking(job: ImageJob, e: Evidence, nowMs: int): RestartAction {
    if HasLiveLease(job, nowMs) then WaitForLease
    else if !IsGone(e) then DoRequireCompensation
    else if e.privateArtifact.Unobservable? then DoManualReview
    else CleanPrivateThenRecoverRetry
  }

  /** needsImageJobRecovery of the in-memory driver. */
  predicate NeedsRecovery(job: ImageJob, nowMs: int) {
    if job.state.Ready? || job.state.Failed? || job.state.Compensated? || job.state.ManualReview? then false
    else if job.state.Queued? || job.state.CompensationRequired? then IsDue(job, nowMs)
    else job.lease.Some? ==> job.lease.value.expiresAtMs <= nowMs
  }

  /** The WHERE clause of the MariaDB recovery query; a NULL lease compares to nothing. */
  predicate RecoveryQuerySelects(job: ImageJob, nowMs: int) {
    || job.state.Requested?
    || ((job.state.Queued? || job.state.CompensationRequired?) && IsDue(job, nowMs))
    || (HoldsLease(job.state) && job.lease.Some? && job.lease.value.expiresAtMs <= nowMs)
  }
}
