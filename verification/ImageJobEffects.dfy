/**
 What an accepted command does to a ledger row, told twice: the policy tells it command by command,
 this module rule by rule and field by field. The two are proved equal, and the row invariant that
 every history keeps is proved on the second form.
 */
module ImageJobEffects {
  import opened Outcomes
  import opened ImageJobPolicy

  predicate IsWorking(state: JobState) {
    state.Processing? || state.OutputReady? || state.Publishing?
  }

  /** No command leaves these. */
  predicate IsFinal(state: JobState) {
    state.Ready? || state.Compensated?
  }

  predicate IsClaim(a: Action) {
    a.ClaimProcessing? || a.ClaimCompensation?
  }

  /** Commands that a reconciler may issue only once the recorded lease has run out. */
  predicate IsTakeover(a: Action) {
    a.RecoverReady? || a.RecoverRetry? || a.RecoverCompensated?
  }

  /** Commands that move a row aside whenever nobody holds it. */
  predicate IsIntervention(a: Action) {
    a.RequireCompensation? || a.MarkManualReview?
  }

  /** The lease token that a holder-only command presents. */
  function HolderToken(a: Action): Option<string> {
    match a
    case RecordOutputReady(token, _, _) => Some(token)
    case BeginPublication(token) => Some(token)
    case MarkReady(token, _, _) => Some(token)
    case RecordFailure(token, _, _, _, _) => Some(token)
    case MarkCompensated(token, _, _) => Some(token)
    case RecordCompensationFailure(token, _, _) => Some(token)
    case _ => None
  }

  function ErrorCodeOf(a: Action): Option<string> {
    match a
    case RecordFailure(_, code, _, _, _) => Some(code)
    case RecoverRetry(_, _, _, _, code) => Some(code)
    case RequireCompensation(code, _) => Some(code)
    case RecordCompensationFailure(_, code, _) => Some(code)
    case MarkManualReview(code) => Some(code)
    case _ => None
  }

  /** The time at which `c` asks for the next attempt. */
  function RequestedTime(c: Command): int {
    match c.action
    case Enqueue(notBeforeMs) => notBeforeMs
    case RecordFailure(_, _, _, _, retryAtMs) => retryAtMs.GetOr(c.atMs)
    case RecoverRetry(_, _, _, retryAtMs, _) => retryAtMs
    case RequireCompensation(_, retryAtMs) => retryAtMs
    case RecordCompensationFailure(_, _, retryAtMs) => retryAtMs
    case _ => c.atMs
  }

  function LeaseOf(c: Command): Lease
    requires IsClaim(c.action)
  {
    Lease(c.action.leaseOwner, c.action.leaseToken, c.atMs, c.action.leaseExpiresAtMs)
  }

  // ---------------------------------------------------------------------------------------------
  // When a command is accepted
  // ---------------------------------------------------------------------------------------------

  predicate HasAttemptsLeft(job: ImageJob) {
    job.attemptCount < job.request.maxAttempts
  }

  predicate HasCompensationAttemptsLeft(job: ImageJob) {
    job.compensationAttemptCount < job.request.maxCompensationAttempts
  }

  /** The state graph: the rows a command may start from. */
  predicate IsSource(job: ImageJob, a: Action) {
    match a
    case Enqueue(_) => job.state.Requested?
    case ClaimProcessing(_, _, _) => job.state.Queued? && HasAttemptsLeft(job)
    case RecordOutputReady(_, _, _) => job.state.Processing?
    case BeginPublication(_) => job.state.OutputReady?
    case MarkReady(_, _, _) => job.state.Publishing?
    case RecoverReady(_, _) => job.state.Publishing?
    case RecordFailure(_, _, _, _, _) => IsWorking(job.state)
    case RecoverRetry(_, _, _, _, _) => IsWorking(job.state)
    case ClaimCompensation(_, _, _) => job.state.CompensationRequired? && HasCompensationAttemptsLeft(job)
    case RequireCompensation(_, _) => !IsFinal(job.state)
    case MarkManualReview(_) => !IsFinal(job.state)
    case _ => job.state.Compensating?
  }

  /** The state graph: where it takes them. */
  function Target(job: ImageJob, a: Action): JobState {
    match a
    case Enqueue(_) => Queued
    case ClaimProcessing(_, _, _) => Processing
    case RecordOutputReady(_, _, _) => OutputReady
    case BeginPublication(_) => Publishing
    case MarkReady(_, _, _) => Ready
    case RecoverReady(_, _) => Ready
    case RecordFailure(_, _, mayHavePublished, _, retryAtMs) =>
      if job.state.Publishing? || mayHavePublished then CompensationRequired
      else if HasAttemptsLeft(job) && retryAtMs.Some? then Queued
      else Failed
    case RecoverRetry(_, _, _, _, _) => if HasAttemptsLeft(job) then Queued else Failed
    case RequireCompensation(_, _) => CompensationRequired
    case ClaimCompensation(_, _, _) => Compensating
    case MarkCompensated(_, _, _) => Compensated
    case RecoverCompensated(_, _) => Compensated
    case RecordCompensationFailure(_, _, _) =>
      if HasCompensationAttemptsLeft(job) then CompensationRequired else ManualReview
    case MarkManualReview(_) => ManualReview
  }

  /** Who may act: the live holder, a taker-over of an expired lease, anyone on an unheld row. */
  predicate MeetsLeaseRule(job: ImageJob, c: Command) {
    && (HolderToken(c.action).Some? ==>
          HasLiveLease(job, c.atMs) && job.lease.value.token == HolderToken(c.action).value)
    && (IsTakeover(c.action) ==> job.lease.Some? && !HasLiveLease(job, c.atMs))
    && (IsIntervention(c.action) ==> !HasLiveLease(job, c.atMs))
    && (IsClaim(c.action) ==> IsDue(job, c.atMs))
  }

  /** The proofs about files and registrations that the caller must claim. */
  predicate MeetsProofRule(job: ImageJob, c: Command) {
    match c.action
    case MarkReady(_, published, committed) => published && committed
    case RecoverReady(published, committed) => published && committed
    case RecordFailure(_, _, _, privateRemoved, _) =>
      Target(job, c.action).CompensationRequired? || privateRemoved
    case RecoverRetry(finalAbsent, registrationAbsent, privateRemoved, _, _) =>
      finalAbsent && registrationAbsent && privateRemoved
    case MarkCompensated(_, finalAbsent, registrationAbsent) => finalAbsent && registrationAbsent
    case RecoverCompensated(finalAbsent, registrationAbsent) => finalAbsent && registrationAbsent
    case _ => true
  }

  /** The shapes of the arguments that end up in the row. */
  predicate MeetsArgumentRule(job: ImageJob, c: Command) {
    && (Target(job, c.action).Queued? || Target(job, c.action).CompensationRequired? ==>
          IsEpoch(RequestedTime(c)))
    && (c.action.Enqueue? ==> c.atMs <= RequestedTime(c))
    && (IsClaim(c.action) ==> IsLease(LeaseOf(c), c.atMs, true))
    && (ErrorCodeOf(c.action).Some? ==> IsErrorCode(ErrorCodeOf(c.action).value))
    && (c.action.RecordOutputReady? ==>
          0 < c.action.sourceWidth <= MAX_DIMENSION && 0 < c.action.sourceHeight <= MAX_DIMENSION)
  }

  predicate IsPermitted(job: ImageJob, c: Command) {
    && IsSource(job, c.action)
    && MeetsLeaseRule(job, c)
    && MeetsProofRule(job, c)
    && MeetsArgumentRule(job, c)
  }

  // ---------------------------------------------------------------------------------------------
  // What an accepted command changes
  // ---------------------------------------------------------------------------------------------

  /** The row after `c`: every field's own law. */
  function Effect(job: ImageJob, c: Command): ImageJob {
    var a := c.action;
    var to := Target(job, a);
    var at := Some(c.atMs);
    ImageJob(
      job.request,
      to,
      PublicationShape(to),
      CompensationShape(to),
      job.version + 1,
      job.attemptCount + (if a.ClaimProcessing? then 1 else 0),
      job.compensationAttemptCount + (if a.ClaimCompensation? then 1 else 0),
      if to.Queued? || to.CompensationRequired? then Some(Max(RequestedTime(c), c.atMs)) else None,
      if a.ClaimProcessing? && job.firstAttemptAtMs.None? then at else job.firstAttemptAtMs,
      if a.ClaimProcessing? then at else job.lastAttemptAtMs,
      if a.ClaimCompensation? then at else job.lastCompensationAttemptAtMs,
      if IsClaim(a) then Some(LeaseOf(c)) else if HoldsLease(to) then job.lease else None,
      if a.RecordOutputReady? then at else job.outputReadyAtMs,
      if a.RecordOutputReady? then Some(a.sourceWidth) else job.resultSourceWidth,
      if a.RecordOutputReady? then Some(a.sourceHeight) else job.resultSourceHeight,
      if to.Ready? then at else None,
      if to.Ready? then at else None,
      if to.Failed? then at else job.failedAtMs,
      if InCompensation(to) && job.compensationRequestedAtMs.None? then at else job.compensationRequestedAtMs,
      if to.Compensated? then at else None,
      if ErrorCodeOf(a).Some? then ErrorCodeOf(a) else job.lastErrorCode,
      job.createdAtMs,
      c.atMs)
  }

  /** The switch of transitionImageJob and the rules above agree on `c`. */
  predicate SwitchFollowsRules(job: ImageJob, c: Command) {
    && (Apply(job, c).Ok? <==> IsPermitted(job, c))
    && (Apply(job, c).Ok? ==> Apply(job, c).value == Effect(job, c))
  }

  lemma SchedulingFollowsRules(job: ImageJob, c: Command)
    requires IsValid(job)
    requires IsClaim(c.action) || c.action.Enqueue?
    ensures SwitchFollowsRules(job, c)
  {
    hide IsRequest, IsErrorCode, IsHexText, IsLeaseOwner;
  }

  lemma PublicationFollowsRules(job: ImageJob, c: Command)
    requires IsValid(job)
    requires
      || c.action.RecordOutputReady? || c.action.BeginPublication?
      || c.action.MarkReady? || c.action.RecoverReady?
    ensures SwitchFollowsRules(job, c)
  {
    hide IsRequest, IsErrorCode, IsHexText, IsLeaseOwner;
  }

  lemma FailureFollowsRules(job: ImageJob, c: Command)
    requires IsValid(job)
    requires c.action.RecordFailure? || c.action.RecoverRetry?
    ensures SwitchFollowsRules(job, c)
  {
    hide IsRequest, IsErrorCode, IsHexText, IsLeaseOwner;
  }

  lemma CompensationFollowsRules(job: ImageJob, c: Command)
    requires IsValid(job)
    requires
      || c.action.MarkCompensated? || c.action.RecoverCompensated?
      || c.action.RecordCompensationFailure?
    ensures SwitchFollowsRules(job, c)
  {
    hide IsRequest, IsErrorCode, IsHexText, IsLeaseOwner;
  }

  lemma InterventionFollowsRules(job: ImageJob, c: Command)
    requires IsValid(job)
    requires IsIntervention(c.action)
    ensures SwitchFollowsRules(job, c)
  {
    hide IsRequest, IsErrorCode, IsHexText, IsLeaseOwner;
  }

  /** On every checked row the switch accepts exactly the permitted commands, with exactly that effect. */
  lemma SwitchIsRules(job: ImageJob, c: Command)
    requires IsValid(job)
    ensures Apply(job, c).Ok? <==> IsPermitted(job, c)
    ensures Apply(job, c).Ok? ==> Apply(job, c).value == Effect(job, c)
  {
    assert SwitchFollowsRules(job, c) by {
      hide Apply, SwitchFollowsRules, IsValid;
      match c.action {
        case Enqueue(_) => SchedulingFollowsRules(job, c);
        case ClaimProcessing(_, _, _) => SchedulingFollowsRules(job, c);
        case ClaimCompensation(_, _, _) => SchedulingFollowsRules(job, c);
        case RecordFailure(_, _, _, _, _) => FailureFollowsRules(job, c);
        case RecoverRetry(_, _, _, _, _) => FailureFollowsRules(job, c);
        case MarkCompensated(_, _, _) => CompensationFollowsRules(job, c);
        case RecoverCompensated(_, _) => CompensationFollowsRules(job, c);
        case RecordCompensationFailure(_, _, _) => CompensationFollowsRules(job, c);
        case RequireCompensation(_, _) => InterventionFollowsRules(job, c);
        case MarkManualReview(_) => InterventionFollowsRules(job, c);
        case _ => PublicationFollowsRules(job, c);
      }
    }
    hide Apply, IsPermitted, Effect;
  }

  // ---------------------------------------------------------------------------------------------
  // The row invariant
  // ---------------------------------------------------------------------------------------------

  /** The facts the run-time check leaves out: dimensions before `ready`, attempts left in the queue. */
  predicate IsConsistent(job: ImageJob) {
    && (job.state.Requested? ==> job.version == 0 && job.attemptCount == 0)
    && (job.state.Queued? ==> HasAttemptsLeft(job))
    && (IsWorking(job.state) || job.state.Ready? ==> 0 < job.attemptCount)
    && (job.state.OutputReady? || job.state.Publishing? ==> job.resultSourceWidth.Some?)
    && (!InCompensation(job.state) ==> job.compensationAttemptCount == 0)
    && (job.state.Compensating? ==> 0 < job.compensationAttemptCount)
  }

  predicate IsSound(job: ImageJob) {
    IsValid(job) && IsConsistent(job)
  }

  lemma CreatedJobIsSound(input: NewImageJob, atMs: int)
    ensures CreateImageJob(input, atMs).Ok? ==> IsSound(CreateImageJob(input, atMs).value)
  {
  }

  lemma EffectIsValid(job: ImageJob, c: Command)
    requires IsValid(job) && job.version < MAX_SAFE_INTEGER && RequireFresh(job, c).Pass?
    requires IsPermitted(job, c)
    ensures IsValid(Effect(job, c)) <==> !(Target(job, c.action).Ready? && job.resultSourceWidth.None?)
  {
    hide IsRequest, IsErrorCode, IsHexText, IsLeaseOwner;
  }

  /**
   Exactly when transitionImageJob's trailing assertion fires on a checked row: the command publishes a
   row that never recorded its dimensions.
   */
  lemma TrailingCheckFailsExactly(job: ImageJob, c: Command)
    requires IsValid(job) && job.version < MAX_SAFE_INTEGER && RequireFresh(job, c).Pass?
    requires IsPermitted(job, c)
    ensures Transition(job, c) == (if Target(job, c.action).Ready? && job.resultSourceWidth.None?
                                   then Err(InvalidJob)
                                   else Ok(Effect(job, c)))
  {
    SwitchIsRules(job, c);
    EffectIsValid(job, c);
    hide Apply, IsValid, Effect, IsPermitted;
  }

  /** Such a row exists: the run-time invariant is not inductive. */
  lemma CheckedInvariantIsNotInductive(input: NewImageJob)
    requires CreateImageJob(input, 0).Ok?
    ensures exists job: ImageJob, c: Command ::
              && job.request == input && IsValid(job)
              && IsPermitted(job, c) && Transition(job, c) == Err(InvalidJob)
  {
    var token := seq(32, i => '0');
    var job := InitialJob(input, 0).(
      state := Publishing, publicationState := BeingPublished,
      lease := Some(Lease("web-1", token, 0, 10)),
      attemptCount := 1, firstAttemptAtMs := Some(0), lastAttemptAtMs := Some(0));
    var c := Command(0, 0, MarkReady(token, true, true));
    assert IsValid(job);
    TrailingCheckFailsExactly(job, c);
  }

  /** An accepted command on a sound row: the only facts that histories need. */
  predicate IsSoundStep(job: ImageJob, c: Command, next: ImageJob) {
    && c.expectedVersion == job.version
    && job.updatedAtMs <= c.atMs
    && next == Effect(job, c)
    && IsPermitted(job, c)
    && IsSound(job)
    && IsSound(next)
  }

  lemma EffectIsConsistent(job: ImageJob, c: Command)
    requires IsSound(job) && IsPermitted(job, c)
    ensures IsConsistent(Effect(job, c))
    ensures Target(job, c.action).Ready? ==> job.resultSourceWidth.Some?
  {
    hide IsRequest, IsErrorCode, IsHexText, IsLease;
  }

  /**
   On a sound row the trailing assertion never fires and no claim of processing runs out of attempts:
   a fresh command is accepted exactly when the rules permit it, and soundness is kept.
   */
  lemma SoundRowsStaySound(job: ImageJob, c: Command)
    requires IsSound(job) && job.version < MAX_SAFE_INTEGER
    ensures Transition(job, c).Ok? <==> RequireFresh(job, c).Pass? && IsPermitted(job, c)
    ensures Transition(job, c).Ok? ==> IsSoundStep(job, c, Transition(job, c).value)
    ensures c.action.ClaimProcessing? ==> Transition(job, c) != Err(AttemptsExhausted)
  {
    SwitchIsRules(job, c);
    if RequireFresh(job, c).Pass? && IsPermitted(job, c) {
      TrailingCheckFailsExactly(job, c);
      EffectIsConsistent(job, c);
    }
    hide IsValid, Effect, IsPermitted, Target;
  }

  /** Whatever the version, an accepted command on a sound row is a sound step. */
  lemma AcceptedIsSoundStep(job: ImageJob, c: Command)
    requires IsSound(job) && Transition(job, c).Ok?
    ensures IsSoundStep(job, c, Transition(job, c).value)
    ensures IsLater(job, Transition(job, c).value)
    ensures job.version < Transition(job, c).value.version
  {
    SwitchIsRules(job, c);
    assert job.version < MAX_SAFE_INTEGER;
    SoundRowsStaySound(job, c);
    SoundStepIsLater(job, c, Transition(job, c).value);
    hide IsSound, IsValid, Effect, IsPermitted, Apply, Target;
  }

  /** `later` may be read from the ledger some time after `earlier`. */
  predicate IsLater(earlier: ImageJob, later: ImageJob) {
    && later.request == earlier.request
    && (later != earlier ==>
          && earlier.version < later.version
          && earlier.updatedAtMs <= later.updatedAtMs
          && !IsFinal(earlier.state)
          && (InCompensation(earlier.state) ==> InCompensation(later.state)))
  }

  lemma LaterIsTransitive(a: ImageJob, b: ImageJob, c: ImageJob)
    requires IsLater(a, b) && IsLater(b, c)
    ensures IsLater(a, c)
  {
  }

  lemma SoundStepIsLater(job: ImageJob, c: Command, next: ImageJob)
    requires IsSoundStep(job, c, next)
    ensures IsLater(job, next) && job.version < next.version
  {
    hide IsSound, IsValid, IsConsistent;
  }

  /** What the stores and the protocol need to know of an accepted command. */
  predicate IsRowStep(job: ImageJob, a: Action, next: ImageJob) {
    && IsSound(next)
    && IsLater(job, next)
    && job.version < next.version
    && !IsFinal(job.state)
    && (next.state.Ready? <==> a.MarkReady? || a.RecoverReady?)
    && (next.state.Ready? ==> job.state.Publishing?)
    && (a.RecoverReady? ==> a.readyRegistrationCommitted)
    && (a.MarkCompensated? || a.RecoverCompensated? ==> job.state.Compensating? && next.state.Compensated?)
    && (a.BeginPublication? <==> next.state.Publishing?)
    && (a.ClaimCompensation? <==> next.state.Compensating?)
  }

  lemma AcceptedIsRowStep(job: ImageJob, c: Command)
    requires IsSound(job) && Transition(job, c).Ok?
    ensures IsRowStep(job, c.action, Transition(job, c).value)
  {
    AcceptedIsSoundStep(job, c);
    hide IsSound, Transition, IsLater;
  }
}
