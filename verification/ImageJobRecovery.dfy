/** The restart planner against the transitions it advises, and the selection of rows to recover. */
module ImageJobRecovery {
  import opened Outcomes
  import opened ImageJobPolicy
  import opened ImageJobEffects
  import opened ImageJobRuns

  /**
   The ledger command that the planner's action names, at `nowMs`. The service issues just this command,
   with one exception: for require_compensation on a `compensating` row #compensatePublishedJob skips it and
   goes on to mark_compensated (see ImageProtocolRecovery).
   */
  function Advice(job: ImageJob, action: RestartAction, nowMs: int, lease: Lease, errorCode: string)
    : Option<Command>
  {
    var at := (a: Action) => Some(Command(job.version, nowMs, a));
    match action
    case DoEnqueue => at(Enqueue(nowMs))
    case DoClaimProcessing => at(ClaimProcessing(lease.owner, lease.token, lease.expiresAtMs))
    case DoRecoverReady => at(RecoverReady(true, true))
    case CleanPrivateThenRecoverRetry => at(RecoverRetry(true, true, true, nowMs, errorCode))
    case DoRequireCompensation => at(RequireCompensation(errorCode, nowMs))
    case DoClaimCompensation => at(ClaimCompensation(lease.owner, lease.token, lease.expiresAtMs))
    case DoRecoverCompensated => at(RecoverCompensated(true, true))
    case DoManualReview =>
      if IsFinal(job.state) || job.state.ManualReview? then None else at(MarkManualReview(errorCode))
    case _ => None
  }

  /** A compensation that is asked for but has no attempt left to make. */
  predicate IsExhausted(job: ImageJob) {
    job.state.CompensationRequired? && !HasCompensationAttemptsLeft(job)
  }

  lemma AdviceIsPermittedExactly(
    job: ImageJob, e: Evidence, nowMs: int, lease: Lease, errorCode: string)
    requires IsSound(job) && PlanRestart(job, e, nowMs).Ok?
    requires IsLease(lease, nowMs, true) && lease.acquiredAtMs == nowMs && IsErrorCode(errorCode)
    ensures var advice := Advice(job, PlanRestart(job, e, nowMs).value, nowMs, lease, errorCode);
            advice.Some? ==>
              RequireFresh(job, advice.value).Pass? && (IsPermitted(job, advice.value) <==> !IsExhausted(job))
  {
    hide IsRequest, IsErrorCode, IsHexText, IsLeaseOwner;
  }

  /**
   The planner's advice is accepted on every sound row and for all evidence, except on an exhausted row,
   where the advised claim is refused with ATTEMPTS_EXHAUSTED.
   */
  lemma AdviceIsAcceptedExactly(
    job: ImageJob, e: Evidence, nowMs: int, lease: Lease, errorCode: string)
    requires IsSound(job) && job.version < MAX_SAFE_INTEGER
    requires PlanRestart(job, e, nowMs).Ok?
    requires IsLease(lease, nowMs, true) && lease.acquiredAtMs == nowMs && IsErrorCode(errorCode)
    ensures var advice := Advice(job, PlanRestart(job, e, nowMs).value, nowMs, lease, errorCode);
            advice.Some? ==>
              && (Transition(job, advice.value).Ok? <==> !IsExhausted(job))
              && (IsExhausted(job) ==> Transition(job, advice.value) == Err(AttemptsExhausted))
  {
    hide IsRequest, IsErrorCode, IsHexText, IsLeaseOwner, IsPermitted, Effect;
    var advice := Advice(job, PlanRestart(job, e, nowMs).value, nowMs, lease, errorCode);
    if advice.Some? {
      AdviceIsPermittedExactly(job, e, nowMs, lease, errorCode);
      SoundRowsStaySound(job, advice.value);
    }
  }

  /** Actions that rest on the absence of something, or on the presence of everything. */
  predicate TrustsEvidence(action: RestartAction) {
    || action.DoRecoverReady? || action.CleanPrivateThenRecoverRetry?
    || action.DoRecoverCompensated? || action.CleanPrivate?
  }

  /**
   The planner never decides against its evidence: a live lease is only waited for, what was not observed
   is never taken for present or absent, a retry needs the public file and the registration seen absent,
   and a published row is questioned exactly when it is not intact.
   */
  lemma AdviceFollowsEvidence(job: ImageJob, e: Evidence, nowMs: int)
    requires PlanRestart(job, e, nowMs).Ok?
    ensures var action := PlanRestart(job, e, nowMs).value;
            && (HasLiveLease(job, nowMs) ==> action.WaitForLease?)
            && (TrustsEvidence(action) ==> !e.finalArtifact.Unobservable? && !e.readyRegistration.Unobservable?)
            && (action.DoRecoverReady? ==> IsIntact(e))
            && (action.CleanPrivateThenRecoverRetry? ==> IsGone(e) && !e.privateArtifact.Unobservable?)
            && (action.DoRecoverCompensated? ==> IsGone(e))
            && (job.state.Ready? ==> (action.DoManualReview? <==> !IsIntact(e)))
            && (action.CleanPrivate? ==> job.state.Failed? && IsGone(e) && e.privateArtifact.Present?)
  {
    hide IsRequest, IsErrorCode, IsLease;
  }

  /** Neither the public file nor the registration is there, and both were looked for with success. */
  predicate IsSeenGone(e: Evidence) {
    e.finalArtifact == Absent && e.readyRegistration == Absent
  }

  predicate IsSeenIntact(e: Evidence) {
    e.finalArtifact == Present && e.readyRegistration == Present
  }

  /** Somebody may still be working on the row. */
  predicate IsHeldAt(job: ImageJob, nowMs: int) {
    job.lease.Some? && nowMs < job.lease.value.expiresAtMs
  }

  predicate IsDueBy(job: ImageJob, nowMs: int) {
    job.nextAttemptAtMs.None? || job.nextAttemptAtMs.value <= nowMs
  }

  /**
   When the planner advises what, for the rows that work on an image or may have published one: a retry
   exactly with both seen gone and the private files seen; a compensation exactly when something public may
   be left, except that a publication seen intact is recovered.
   */
  lemma WorkingPlanIsExact(job: ImageJob, e: Evidence, nowMs: int)
    requires IsSound(job) && PlanRestart(job, e, nowMs).Ok?
    ensures var action := PlanRestart(job, e, nowMs).value;
            var isOpen := IsWorking(job.state) && !IsHeldAt(job, nowMs);
            && (action == CleanPrivateThenRecoverRetry <==>
                  isOpen && IsSeenGone(e) && e.privateArtifact != Unobservable)
            && (action == DoRecoverReady <==> isOpen && job.state == Publishing && IsSeenIntact(e))
            && (action == DoRequireCompensation <==>
                  || (isOpen && job.state != Publishing && !IsSeenGone(e))
                  || (isOpen && job.state == Publishing && !IsSeenIntact(e)
                      && !(IsSeenGone(e) && e.privateArtifact != Unobservable))
                  || (job.state == Failed && !IsSeenGone(e))
                  || (job.state == Compensating && !IsHeldAt(job, nowMs) && !IsSeenGone(e)
                      && job.compensationAttemptCount < job.request.maxCompensationAttempts))
            && (action == DoManualReview <==>
                  || (isOpen && job.state != Publishing && IsSeenGone(e) && e.privateArtifact == Unobservable)
                  || (job.state == Ready && !IsSeenIntact(e))
                  || (job.state == Failed && IsSeenGone(e) && e.privateArtifact == Unobservable)
                  || (job.state == Compensating && !IsHeldAt(job, nowMs) && !IsSeenGone(e)
                      && job.request.maxCompensationAttempts <= job.compensationAttemptCount)
                  || (job.state == Compensated && !IsSeenGone(e))
                  || job.state == ManualReview)
  {
    hide IsRequest, IsErrorCode, IsLease;
  }

  /** The rest of the plan: who is waited for, what is started, and which finished rows are left alone. */
  lemma OtherPlanIsExact(job: ImageJob, e: Evidence, nowMs: int)
    requires IsSound(job) && PlanRestart(job, e, nowMs).Ok?
    ensures var action := PlanRestart(job, e, nowMs).value;
            && (action == WaitForLease <==> IsHeldAt(job, nowMs))
            && (action == WaitUntilDue <==>
                  (job.state == Queued || job.state == CompensationRequired) && !IsDueBy(job, nowMs))
            && (action == DoEnqueue <==> job.state == Requested)
            && (action == DoClaimProcessing <==> job.state == Queued && IsDueBy(job, nowMs))
            && (action == DoClaimCompensation <==> job.state == CompensationRequired && IsDueBy(job, nowMs))
            && (action == DoRecoverCompensated <==>
                  job.state == Compensating && !IsHeldAt(job, nowMs) && IsSeenGone(e))
            && (action == CleanPrivate <==> job.state == Failed && IsSeenGone(e) && e.privateArtifact == Present)
            && (action == NoAction <==>
                  || (job.state == Ready && IsSeenIntact(e))
                  || (job.state == Failed && IsSeenGone(e) && e.privateArtifact == Absent)
                  || (job.state == Compensated && IsSeenGone(e)))
  {
    hide IsRequest, IsErrorCode, IsLease;
  }

  /** The planner answers every sound row, unless the time is no time or lies before the row's last change. */
  lemma PlannerAnswersExactly(job: ImageJob, e: Evidence, nowMs: int)
    requires IsSound(job)
    ensures PlanRestart(job, e, nowMs).Ok? <==> job.updatedAtMs <= nowMs <= MAX_SAFE_INTEGER
    ensures PlanRestart(job, e, nowMs).Err? ==>
              PlanRestart(job, e, nowMs).error ==
              if 0 <= nowMs <= MAX_SAFE_INTEGER then StaleTimestamp else InvalidJob
  {
    hide IsRequest, IsErrorCode, IsLease, PlanState;
  }

  /** `require_compensation` reopens a compensation or a review only where the planner would advise it. */
  predicate IsPlannerLed(job: ImageJob, c: Command) {
    c.action.RequireCompensation? ==>
      !job.state.ManualReview? && (job.state.Compensating? ==> HasCompensationAttemptsLeft(job))
  }

  predicate IsPlannerLedHistory(job: ImageJob, cs: seq<Command>) {
    cs != [] ==>
      var front, c := cs[..|cs| - 1], cs[|cs| - 1];
      IsPlannerLedHistory(job, front) && IsPlannerLed(Replay(job, front), c)
  }

  lemma ExhaustionStep(job: ImageJob, c: Command, next: ImageJob)
    requires IsSoundStep(job, c, next) && IsPlannerLed(job, c) && !IsExhausted(job)
    ensures !IsExhausted(next)
  {
    hide IsErrorCode, IsLease, IsHexText;
  }

  /** Where compensation is reopened only on the planner's advice, its advice is never refused. */
  lemma {:induction false} PlannerLedRowsAreNeverExhausted(job: ImageJob, cs: seq<Command>)
    requires IsSound(job) && !IsExhausted(job)
    requires IsPlannerLedHistory(job, cs)
    ensures !IsExhausted(Replay(job, cs))
  {
    if cs != [] {
      var front, c := cs[..|cs| - 1], cs[|cs| - 1];
      PlannerLedRowsAreNeverExhausted(job, front);
      ReplayStaysSound(job, front);
      var row := Replay(job, front);
      if Transition(row, c).Ok? {
        AcceptedIsSoundStep(row, c);
        ExhaustionStep(row, c, Transition(row, c).value);
      }
      hide IsSound, Transition, IsPermitted, Effect, IsExhausted;
    }
  }

  /** Both drivers' selections pick exactly the unfinished rows for which the planner does not say wait. */
  lemma RecoverySelectionIsExact(job: ImageJob, nowMs: int)
    requires IsValid(job) && IsEpoch(nowMs) && job.updatedAtMs <= nowMs
    ensures NeedsRecovery(job, nowMs) == RecoveryQuerySelects(job, nowMs)
    ensures NeedsRecovery(job, nowMs)
            <==> && !IsFinal(job.state) && !job.state.Failed? && !job.state.ManualReview?
                 && forall e: Evidence :: !IsWait(PlanRestart(job, e, nowMs))
  {
    hide IsRequest, IsErrorCode, IsHexText, IsLeaseOwner;
    var e := Evidence(Absent, Absent, Absent);
    assert IsWait(PlanRestart(job, e, nowMs)) <==>
           || ((job.state.Queued? || job.state.CompensationRequired?) && !IsDue(job, nowMs))
           || HasLiveLease(job, nowMs);
  }

  predicate IsWait(plan: Result<RestartAction, PolicyError>) {
    plan == Ok(WaitUntilDue) || plan == Ok(WaitForLease)
  }

  // ---------------------------------------------------------------------------------------------
  // Histories that spend the whole budget
  // ---------------------------------------------------------------------------------------------

  function BriskToken(): string {
    seq(32, i => '0')
  }

  /** Retries are due at once and the lease is about to run out. */
  predicate IsBrisk(job: ImageJob) {
    && (job.nextAttemptAtMs.Some? ==> job.nextAttemptAtMs.value == job.updatedAtMs)
    && (job.lease.Some? ==>
          job.lease.value.token == BriskToken() && job.lease.value.expiresAtMs == job.updatedAtMs + 1)
  }

  /** The slowest next command. */
  function SlowestMove(job: ImageJob): Command {
    var now, later := job.updatedAtMs, job.updatedAtMs + 1;
    match job.state
    case Requested => Command(job.version, now, Enqueue(now))
    case Queued => Command(job.version, now, ClaimProcessing("web-1", BriskToken(), later))
    case Processing => Command(job.version, now, RecordOutputReady(BriskToken(), 1, 1))
    case OutputReady => Command(job.version, now, BeginPublication(BriskToken()))
    case Publishing => Command(job.version, later, RecoverRetry(true, true, true, later, "E"))
    case CompensationRequired =>
      if HasCompensationAttemptsLeft(job)
      then Command(job.version, now, ClaimCompensation("web-1", BriskToken(), later))
      else Command(job.version, now, MarkManualReview("E"))
    case Compensating => Command(job.version, later, RequireCompensation("E", later))
    case _ => Command(job.version, now, RequireCompensation("E", now))
  }

  lemma SlowestMoveIsPermitted(job: ImageJob)
    requires IsSound(job) && IsBrisk(job) && 0 < Budget(job) && job.updatedAtMs + 1 < MAX_SAFE_INTEGER
    ensures RequireFresh(job, SlowestMove(job)).Pass? && IsPermitted(job, SlowestMove(job))
    ensures !IsReissue(job, SlowestMove(job).action)
  {
    hide IsRequest;
  }

  lemma SlowestEffect(job: ImageJob)
    requires IsSound(job) && IsBrisk(job) && 0 < Budget(job)
    ensures var next := Effect(job, SlowestMove(job));
            && IsBrisk(next) && Budget(next) == Budget(job) - 1
            && next.request == job.request
            && next.version == job.version + 1 && next.updatedAtMs <= job.updatedAtMs + 1
  {
    hide IsRequest, IsErrorCode, IsLease, BriskToken;
  }

  lemma SlowestMoveSpendsOne(job: ImageJob)
    requires IsSound(job) && IsBrisk(job) && 0 < Budget(job)
    requires job.version < MAX_SAFE_INTEGER && job.updatedAtMs + 1 < MAX_SAFE_INTEGER
    ensures Transition(job, SlowestMove(job)).Ok?
    ensures !IsReissue(job, SlowestMove(job).action)
    ensures var next := Transition(job, SlowestMove(job)).value;
            && IsSound(next) && IsBrisk(next) && Budget(next) == Budget(job) - 1
            && next.request == job.request
            && next.version == job.version + 1 && next.updatedAtMs <= job.updatedAtMs + 1
  {
    SlowestMoveIsPermitted(job);
    SlowestEffect(job);
    SoundRowsStaySound(job, SlowestMove(job));
    hide IsSound, IsBrisk, Budget, SlowestMove, Transition, Effect, IsPermitted, IsReissue;
  }

  /** From a brisk row the slowest moves reach every smaller budget, and none of them is a reissue. */
  lemma {:induction false} SpendDownTo(job: ImageJob, cs: seq<Command>, budget: int) returns (more: seq<Command>)
    requires IsSound(job) && HasNoReissue(job, cs) && Log(job, cs) == cs
    requires var row := Replay(job, cs);
             && IsSound(row) && IsBrisk(row) && 0 <= budget <= Budget(row)
             && row.request == job.request
             && row.version + Budget(row) <= MAX_SAFE_INTEGER
             && row.updatedAtMs + Budget(row) < MAX_SAFE_INTEGER
    ensures HasNoReissue(job, more) && Log(job, more) == more
    ensures |more| == |cs| + Budget(Replay(job, cs)) - budget
    ensures var row := Replay(job, more);
            && IsSound(row) && IsBrisk(row) && Budget(row) == budget
            && row.request == job.request
            && row.version == Replay(job, cs).version + Budget(Replay(job, cs)) - budget
            && row.updatedAtMs <= Replay(job, cs).updatedAtMs + Budget(Replay(job, cs)) - budget
    decreases Budget(Replay(job, cs)) - budget
  {
    var row := Replay(job, cs);
    if Budget(row) == budget {
      return cs;
    }
    var c := SlowestMove(row);
    SlowestMoveSpendsOne(row);
    var longer := cs + [c];
    assert longer[..|longer| - 1] == cs;
    hide IsSound, IsBrisk, Budget, Transition, SlowestMove, IsReissue;
    more := SpendDownTo(job, longer, budget);
  }

  /** The bound on histories is reached by every request. */
  lemma BoundIsReached(input: NewImageJob, atMs: int)
    requires CreateImageJob(input, atMs).Ok? && atMs + 200 < MAX_SAFE_INTEGER
    ensures exists cs: seq<Command> ::
              && HasNoReissue(CreateImageJob(input, atMs).value, cs)
              && |Log(CreateImageJob(input, atMs).value, cs)|
                 == 4 * input.maxAttempts + 2 * input.maxCompensationAttempts + 3
  {
    var job := CreateImageJob(input, atMs).value;
    CreatedJobIsSound(input, atMs);
    assert Replay(job, []) == job;
    var cs := SpendDownTo(job, [], 0);
    assert HasNoReissue(job, cs) && |Log(job, cs)| == Budget(job);
  }

  /**
   The ledger lets `require_compensation` reopen a manual review. When the compensation attempts are used
   up, the planner then advises a claim that is refused.
   */
  lemma ReopenedReviewDefeatsPlanner(job: ImageJob, nowMs: int, errorCode: string, e: Evidence, lease: Lease)
    requires IsSound(job) && job.state.ManualReview? && job.version + 1 < MAX_SAFE_INTEGER
    requires !HasCompensationAttemptsLeft(job)
    requires job.updatedAtMs <= nowMs && IsErrorCode(errorCode)
    requires IsLease(lease, nowMs, true) && lease.acquiredAtMs == nowMs
    ensures var reopen := Command(job.version, nowMs, RequireCompensation(errorCode, nowMs));
            && Transition(job, reopen).Ok?
            && var next := Transition(job, reopen).value;
            && IsExhausted(next)
            && PlanRestart(next, e, nowMs) == Ok(DoClaimCompensation)
            && Transition(next, Advice(next, DoClaimCompensation, nowMs, lease, errorCode).value)
               == Err(AttemptsExhausted)
  {
    var reopen := Command(job.version, nowMs, RequireCompensation(errorCode, nowMs));
    var next := AcceptedNext(job, reopen);
    assert IsExhausted(next) && IsDue(next, nowMs);
    AdviceIsAcceptedExactly(next, e, nowMs, lease, errorCode);
    hide IsSound, IsErrorCode, IsLease, Effect, Transition;
  }

  /** Every request can reach such a review by processing and compensating as often as it may. */
  lemma ExhaustedReviewIsReachable(input: NewImageJob, atMs: int)
    requires CreateImageJob(input, atMs).Ok? && atMs + 200 < MAX_SAFE_INTEGER
    ensures exists cs: seq<Command> ::
              var row := Replay(CreateImageJob(input, atMs).value, cs);
              row.state.ManualReview? && !HasCompensationAttemptsLeft(row)
  {
    var job := CreateImageJob(input, atMs).value;
    CreatedJobIsSound(input, atMs);
    assert Replay(job, []) == job;
    var cs := SpendDownTo(job, [], 2);
    var held := Replay(job, cs);
    assert held.state.Compensating? && !HasCompensationAttemptsLeft(held);
    var fail := Command(held.version, held.updatedAtMs, RecordCompensationFailure(BriskToken(), "E", 0));
    var reviewed := AcceptedNext(held, fail);
    var all := cs + [fail];
    assert all[..|all| - 1] == cs && Replay(job, all) == reviewed;
  }

  lemma AcceptedNext(job: ImageJob, c: Command) returns (next: ImageJob)
    requires IsSound(job) && job.version < MAX_SAFE_INTEGER
    requires RequireFresh(job, c).Pass? && IsPermitted(job, c)
    ensures Transition(job, c) == Ok(next) && next == Effect(job, c) && IsSound(next)
    ensures Step(job, c) == next
  {
    SoundRowsStaySound(job, c);
    next := Transition(job, c).value;
  }
}
