/**
 A compensation without attempts: no recovery moves it, no other call does either unless it is on the way to
 a review of it, and the drainer, which takes the row that has rested longest, never gets past it. It is the
 only kind of row that a recovery whose calls all work leaves as it was.
 */
module ImageProtocolStarvation {
  import opened Outcomes
  import opened ImageJobPolicy
  import opened ImageJobEffects
  import opened ImageJobRecovery
  import opened ImageStores
  import opened ImageStoreAgreement
  import opened ImageProtocol
  import opened ImageProtocolSafety
  import opened ImageProtocolWrites
  import opened ImageProtocolRuns
  import opened ImageProtocolDrives
  import opened ImageProtocolProgress
  import opened ImageProtocolCompensation
  import opened ImageProtocolRecovery

  // ---------------------------------------------------------------------------------------------
  // A compensation without attempts, however its recoveries fare
  // ---------------------------------------------------------------------------------------------

  /** The recovery is on its way over the row `job`, or at its end. */
  predicate IsRecovering(a: Actor, job: ImageJob) {
    match a
    case ObservingFinal(row, _) => row == job
    case ObservingInput(row, _, _) => row == job
    case ObservingTemp(row, _, _, _) => row == job
    case ObservingRegistration(row, _, _, _) => row == job
    case Acting(row, _, _) => row == job
    case StartingCompensation(row, _, caller) => row == job && caller == RecoveryLoop(job)
    case ClaimingCompensation(row, caller) => row == job && caller == RecoveryLoop(job)
    case Done(_) => true
    case _ => false
  }

  lemma ExhaustedClaimIsRefused(job: ImageJob, c: Command)
    requires IsSound(job) && IsExhausted(job) && c.action.ClaimCompensation?
    ensures Transition(job, c).Err?
  {
    hide IsSound, Transition, Effect;
    if Transition(job, c).Ok? {
      AcceptedIsSoundStep(job, c);
    }
  }

  lemma PolicyCodesAreNoReferences(e: PolicyError)
    ensures !IsReferenceFailure(PolicyCodeOf(e))
  {
  }

  /** A step of the recovery changes neither ledger nor files; an I/O error carries no reference code. */
  lemma ExhaustedStep(w: World, i: nat, job: ImageJob, env: Env)
    requires i < |w.actors| && IsRecovering(w.actors[i], job)
    requires Lookup(w.store.jobs, job.request.jobId) == Some(job) && IsSound(job) && IsExhausted(job)
    requires env.works || !IsReferenceFailure(env.code)
    ensures var next := Next(w, Proceed(i, env));
            && next.store == w.store && next.files == w.files
            && |next.actors| == |w.actors| && IsRecovering(next.actors[i], job)
  {
    hide Transition, IsSound, IsReferenceFailure, PolicyCodeOf, Observe, MergeObservations, HasReadyRegistration;
    hide PlanRestart;
    var a := w.actors[i];
    if a.Acting? {
      RecoverySeen(w, i, env);
      ExhaustedPlan(job, a.evidence, a.nowMs);
    } else if a.ClaimingCompensation? {
      CompensateSeen(w, i, env);
      var c := Command(job.version, env.atMs, ClaimAction(env));
      ExhaustedClaimIsRefused(job, c);
      PolicyCodesAreNoReferences(Transition(job, c).error);
    }
  }

  lemma ExhaustedPlan(job: ImageJob, e: Evidence, nowMs: int)
    requires IsExhausted(job)
    ensures var plan := PlanRestart(job, e, nowMs);
            plan.Err? || plan == Ok(DoClaimCompensation) || plan == Ok(WaitUntilDue)
  {
    hide IsValid, IsDue;
  }

  predicate IsPassOf(i: nat, es: seq<Event>) {
    forall e | e in es ::
      e.Proceed? && e.i == i && (e.env.works || !IsReferenceFailure(e.env.code))
  }

  /** However its looks and calls fare, a recovery of such a row changes nothing. */
  lemma {:induction false} ExhaustedNeverChanges(w: World, i: nat, job: ImageJob, es: seq<Event>)
    requires i < |w.actors| && IsRecovering(w.actors[i], job) && IsPassOf(i, es)
    requires Lookup(w.store.jobs, job.request.jobId) == Some(job) && IsSound(job) && IsExhausted(job)
    ensures var after := RunAll(w, es);
            && after.store == w.store && after.files == w.files
            && |after.actors| == |w.actors| && IsRecovering(after.actors[i], job)
  {
    hide Next, IsSound, IsRecovering, IsExhausted, IsReferenceFailure;
    if es != [] {
      var front, e := es[..|es| - 1], es[|es| - 1];
      ExhaustedNeverChanges(w, i, job, front);
      ExhaustedStep(RunAll(w, front), i, job, e.env);
    }
  }

  // ---------------------------------------------------------------------------------------------
  // Every other row moves
  // ---------------------------------------------------------------------------------------------

  /** Every call works and answers, and the leases that it asks for are good ones. */
  predicate IsFavourable(env: Env, job: ImageJob) {
    && IsPrompt(env, job)
    && IsLease(DriverLease(env), env.atMs, true)
  }

  ghost predicate HasMoved(w: World, after: World) {
    after.store != w.store || after.files != w.files
  }

  /** Some drive of the recovery of `job` at `env.atMs` changes the ledger or the files. */
  ghost predicate SomeDriveMoves(w: World, job: ImageJob, env: Env) {
    exists n: nat, after: World ::
      Drives(Next(w, StartRecovery(job.request.jobId, env.atMs)), |w.actors|, env, n, after) && HasMoved(w, after)
  }

  lemma CommandMovesRow(s: Store, job: ImageJob, c: Command, next: ImageJob)
    requires Lookup(s.jobs, job.request.jobId) == Some(job) && IsSound(job)
    requires Transition(job, c) == Ok(next)
    ensures WithRow(s, job.request.jobId, next) != s
  {
    hide IsSound, Transition, Effect, IsPermitted;
    AcceptedIsSoundStep(job, c);
    assert WithRow(s, job.request.jobId, next).jobs[job.request.jobId] == next;
  }

  /** Looks, in a world where every look succeeds; the row is not in compensation. */
  lemma WorkingPlan(w: World, job: ImageJob, env: Env) returns (plan: RestartAction)
    requires IsSound(job) && NeedsRecovery(job, env.atMs) && env.works
    requires Lookup(w.store.jobs, job.request.jobId) == Some(job)
    requires job.updatedAtMs <= env.atMs <= MAX_SAFE_INTEGER
    requires !job.state.CompensationRequired? && !job.state.Compensating?
    ensures PlanRestart(job, EvidenceOf(w, job, env), env.atMs) == Ok(plan)
    ensures job.state.Requested? ==> plan.DoEnqueue?
    ensures job.state.Queued? ==> plan.DoClaimProcessing?
    ensures !job.state.Requested? && !job.state.Queued? ==>
              && IsWorking(job.state) && job.lease.Some? && !HasLiveLease(job, env.atMs)
              && (plan.DoRequireCompensation? || plan.CleanPrivateThenRecoverRetry?)
  {
    hide IsRequest, IsErrorCode, IsLeaseOwner, IsHexText;
    assert !IsAttachableJob(job) by { NotAttachable(job); }
    hide IsAttachableJob;
    plan := PlanRestart(job, EvidenceOf(w, job, env), env.atMs).value;
  }

  lemma EnqueueAllowed(job: ImageJob, atMs: int) returns (next: ImageJob)
    requires IsSound(job) && job.state.Requested? && job.updatedAtMs <= atMs <= MAX_SAFE_INTEGER
    requires job.version < MAX_SAFE_INTEGER
    ensures Transition(job, Command(job.version, atMs, Enqueue(atMs))) == Ok(next)
  {
    hide IsRequest, IsErrorCode, IsLeaseOwner, IsHexText;
    next := AcceptedNext(job, Command(job.version, atMs, Enqueue(atMs)));
  }

  lemma ClaimAllowed(job: ImageJob, env: Env) returns (next: ImageJob)
    requires IsSound(job) && job.state.Queued? && IsDue(job, env.atMs) && IsFavourable(env, job)
    requires job.version < MAX_SAFE_INTEGER
    ensures var claim := ClaimProcessing("web-1", env.token, env.atMs + env.leaseMs);
            Transition(job, Command(job.version, env.atMs, claim)) == Ok(next)
  {
    hide IsRequest, IsErrorCode, IsLeaseOwner, IsHexText;
    var claim := ClaimProcessing("web-1", env.token, env.atMs + env.leaseMs);
    next := AcceptedNext(job, Command(job.version, env.atMs, claim));
  }

  lemma RetryAllowed(job: ImageJob, atMs: int) returns (next: ImageJob)
    requires IsSound(job) && IsWorking(job.state) && job.lease.Some? && !HasLiveLease(job, atMs)
    requires job.updatedAtMs <= atMs <= MAX_SAFE_INTEGER && job.version < MAX_SAFE_INTEGER
    ensures var retry := RecoverRetry(true, true, true, atMs, "WORKER_RESTARTED");
            Transition(job, Command(job.version, atMs, retry)) == Ok(next)
  {
    assert IsErrorCode("WORKER_RESTARTED");
    hide IsRequest, IsErrorCode, IsLeaseOwner, IsHexText;
    next := AcceptedNext(
      job, Command(job.version, atMs, RecoverRetry(true, true, true, atMs, "WORKER_RESTARTED")));
  }

  /** The recovery at its action, in the world it started in. */
  function AtAction(w: World, job: ImageJob, env: Env): World {
    WithRecovery(w, w.store, w.files, Acting(job, env.atMs, EvidenceOf(w, job, env)))
  }

  lemma ComesToAction(w: World, job: ImageJob, env: Env)
    requires Lookup(w.store.jobs, job.request.jobId) == Some(job) && NeedsRecovery(job, env.atMs)
    ensures Drives(
              Next(w, StartRecovery(job.request.jobId, env.atMs)), |w.actors|, env, 4, AtAction(w, job, env))
  {
    hide Next, Drives, NeedsRecovery, EvidenceOf;
    RecoveryStarts(w, job, env.atMs);
    var looking := ObservingFinal(job, env.atMs);
    var w0 := WithRecovery(w, w.store, w.files, looking);
    EvidenceSeen(w0, |w.actors|, job, env.atMs, env);
    SameEvidence(w, w0, job, env);
    RecoveryMoves(
      w, w.store, w.files, looking, w.store, w.files, Acting(job, env.atMs, EvidenceOf(w, job, env)));
  }

  /** A step that sends an acceptable command moves the row. */
  lemma AcceptedWriteMoves(w: World, job: ImageJob, env: Env, n: nat, mid: World, atMs: int, a: Action)
    requires Drives(Next(w, StartRecovery(job.request.jobId, env.atMs)), |w.actors|, env, n, mid)
    requires mid.store == w.store && |w.actors| < |mid.actors| && env.works
    requires WriteOf(mid.actors[|w.actors|], env) == Some(MoveRow(job, atMs, a))
    requires !IsReserving(mid.actors[|w.actors|])
    requires Lookup(w.store.jobs, job.request.jobId) == Some(job) && IsSound(job)
    requires Transition(job, Command(job.version, atMs, a)).Ok?
    ensures SomeDriveMoves(w, job, env)
  {
    hide Drives, IsSound, Transition, WriteOf, ActorStep;
    var i := |w.actors|;
    StepWrites(mid, mid.actors[i], env);
    var next := Transition(job, Command(job.version, atMs, a)).value;
    CommandMovesRow(w.store, job, Command(job.version, atMs, a), next);
    DrivesOn(Next(w, StartRecovery(job.request.jobId, env.atMs)), i, env, n, mid, env.file);
    var after := Next(mid, Proceed(i, env));
    assert after.store == WithRow(w.store, job.request.jobId, next);
    assert HasMoved(w, after);
    hide Next;
  }

  lemma RequestedMoves(w: World, job: ImageJob, env: Env)
    requires Lookup(w.store.jobs, job.request.jobId) == Some(job) && IsSound(job) && job.state.Requested?
    requires NeedsRecovery(job, env.atMs) && IsFavourable(env, job) && job.version < MAX_SAFE_INTEGER
    ensures SomeDriveMoves(w, job, env)
  {
    hide Drives, IsSound, Transition, NeedsRecovery, PlanRestart, EvidenceOf, Next, IsLease, SomeDriveMoves;
    ComesToAction(w, job, env);
    var plan := WorkingPlan(w, job, env);
    var next := EnqueueAllowed(job, env.atMs);
    AcceptedWriteMoves(w, job, env, 4, AtAction(w, job, env), env.atMs, Enqueue(env.atMs));
  }

  lemma QueuedIsDue(job: ImageJob, nowMs: int)
    requires job.state.Queued? && NeedsRecovery(job, nowMs)
    ensures IsDue(job, nowMs)
  {
  }

  /** Decide, find the row queued: the recovery drives it. */
  lemma QueuedIsDriven(w: World, job: ImageJob, env: Env) returns (after: World)
    requires Lookup(w.store.jobs, job.request.jobId) == Some(job) && IsSound(job) && job.state.Queued?
    requires NeedsRecovery(job, env.atMs) && IsFavourable(env, job)
    ensures Drives(Next(w, StartRecovery(job.request.jobId, env.atMs)), |w.actors|, env, 6, after)
    ensures after == WithRecovery(w, w.store, w.files, Claiming(job))
  {
    hide Drives, IsSound, NeedsRecovery, PlanRestart, EvidenceOf, Next, IsLease;
    var i, started := |w.actors|, Next(w, StartRecovery(job.request.jobId, env.atMs));
    var mid := AtAction(w, job, env);
    var acting := mid.actors[i];
    ComesToAction(w, job, env);
    var plan := WorkingPlan(w, job, env);
    RecoverySeen(mid, i, env);
    DrivesOn(started, i, env, 4, mid, env.file);
    RecoveryMoves(w, w.store, w.files, acting, w.store, w.files, Driving(job));
    var driving := WithRecovery(w, w.store, w.files, Driving(job));
    DriveSeen(driving, i, env);
    DrivesOn(started, i, env, 5, driving, env.file);
    RecoveryMoves(w, w.store, w.files, Driving(job), w.store, w.files, Claiming(job));
    after := WithRecovery(w, w.store, w.files, Claiming(job));
  }

  lemma QueuedMoves(w: World, job: ImageJob, env: Env)
    requires Lookup(w.store.jobs, job.request.jobId) == Some(job) && IsSound(job) && job.state.Queued?
    requires NeedsRecovery(job, env.atMs) && IsFavourable(env, job) && job.version < MAX_SAFE_INTEGER
    ensures SomeDriveMoves(w, job, env)
  {
    hide Drives, IsSound, Transition, NeedsRecovery, Next, SomeDriveMoves, IsDue;
    QueuedIsDue(job, env.atMs);
    var claiming := QueuedIsDriven(w, job, env);
    var next := ClaimAllowed(job, env);
    var claim := ClaimProcessing("web-1", env.token, env.atMs + env.leaseMs);
    AcceptedWriteMoves(w, job, env, 6, claiming, env.atMs, claim);
  }

  lemma WorkingMoves(w: World, job: ImageJob, env: Env)
    requires Lookup(w.store.jobs, job.request.jobId) == Some(job) && IsSound(job)
    requires !job.state.Requested? && !job.state.Queued? && !job.state.CompensationRequired?
    requires !job.state.Compensating?
    requires NeedsRecovery(job, env.atMs) && IsFavourable(env, job) && job.version < MAX_SAFE_INTEGER
    ensures SomeDriveMoves(w, job, env)
  {
    hide Drives, IsSound, Transition, NeedsRecovery, PlanRestart, EvidenceOf, Next, IsLease, SomeDriveMoves;
    hide OpeningAction;
    var i, started := |w.actors|, Next(w, StartRecovery(job.request.jobId, env.atMs));
    var mid := AtAction(w, job, env);
    ComesToAction(w, job, env);
    var plan := WorkingPlan(w, job, env);
    RecoverySeen(mid, i, env);
    DrivesOn(started, i, env, 4, mid, env.file);
    var after := Next(mid, Proceed(i, env));
    if plan.DoRequireCompensation? {
      var next := OpeningAccepted(job, "", env.atMs);
      AcceptedWriteMoves(w, job, env, 5, after, env.atMs, OpeningAction(job, "", env.atMs));
    } else {
      var next := RetryAllowed(job, env.atMs);
      var retry := RecoverRetry(true, true, true, env.atMs, "WORKER_RESTARTED");
      AcceptedWriteMoves(w, job, env, 5, after, env.atMs, retry);
    }
  }

  lemma CompensationMoves(w: World, job: ImageJob, env: Env)
    requires IsGood(w) && Lookup(w.store.jobs, job.request.jobId) == Some(job) && IsRecoverable(job, env.atMs)
    requires IsPrompt(env, job) && job.version + 3 <= MAX_SAFE_INTEGER && !IsExhausted(job)
    ensures SomeDriveMoves(w, job, env)
  {
    hide Drives, IsGood, Next, IsPrompt;
    var n, after := RecoveryOutcome(w, job, env);
    assert FinalOf(job) in AllFilesOf(job);
    assert HasMoved(w, after);
  }

  /** Without failures, a recovery gets stuck on exactly the compensations without attempts. */
  lemma RecoveryMovesExactly(w: World, job: ImageJob, env: Env)
    requires IsGood(w) && Lookup(w.store.jobs, job.request.jobId) == Some(job)
    requires NeedsRecovery(job, env.atMs) && IsFavourable(env, job) && job.version + 3 <= MAX_SAFE_INTEGER
    ensures SomeDriveMoves(w, job, env) <==> !IsExhausted(job)
  {
    hide Drives, IsGood, Next, IsLease, IsSound, IsDue, Agrees, SomeDriveMoves, NeedsRecovery;
    GoodAgrees(w);
    CurrentIsSound(w.store, job);
    if IsExhausted(job) {
      ExhaustedDoesNotMove(w, job, env);
    } else if job.state.Requested? {
      RequestedMoves(w, job, env);
    } else if job.state.Queued? {
      QueuedMoves(w, job, env);
    } else if job.state.CompensationRequired? || job.state.Compensating? {
      CompensationMoves(w, job, env);
    } else {
      WorkingMoves(w, job, env);
    }
  }

  lemma ExhaustedDoesNotMove(w: World, job: ImageJob, env: Env)
    requires Lookup(w.store.jobs, job.request.jobId) == Some(job) && IsSound(job) && IsExhausted(job)
    requires NeedsRecovery(job, env.atMs) && env.works
    ensures !SomeDriveMoves(w, job, env)
  {
    hide IsSound, Next, RunAll, IsLegalRun, NeedsRecovery, IsReferenceFailure, IsExhausted;
    if SomeDriveMoves(w, job, env) {
      var started := Next(w, StartRecovery(job.request.jobId, env.atMs));
      var n: nat, after: World :| Drives(started, |w.actors|, env, n, after) && HasMoved(w, after);
      var es: seq<Event> :|
        |es| == n && IsDrive(|w.actors|, env, es) && IsLegalRun(started, es) && RunAll(started, es) == after;
      RecoveryStarts(w, job, env.atMs);
      assert IsPassOf(|w.actors|, es);
      ExhaustedNeverChanges(started, |w.actors|, job, es);
    }
  }

  /** One pass of the drainer, whose batch is a single row: the recovery of `jobId` and its steps. */
  datatype Pass = Pass(jobId: string, nowMs: int, steps: seq<Event>)

  /** The head of listImageJobsForRecovery; rows of one age may come in any order. */
  predicate IsListedFirst(s: Store, jobId: string, nowMs: int) {
    && jobId in s.jobs && NeedsRecovery(s.jobs[jobId], nowMs)
    && forall id | id in s.jobs && NeedsRecovery(s.jobs[id], nowMs) ::
         s.jobs[jobId].updatedAtMs <= s.jobs[id].updatedAtMs
  }

  function AfterPass(w: World, p: Pass): World {
    RunAll(Next(w, StartRecovery(p.jobId, p.nowMs)), p.steps)
  }

  function AfterPasses(w: World, ps: seq<Pass>): World {
    if ps == [] then w else AfterPass(AfterPasses(w, ps[..|ps| - 1]), ps[|ps| - 1])
  }

  /** The drainer alone: each pass takes the row listed first. */
  predicate AreDrains(w: World, ps: seq<Pass>) {
    ps != [] ==>
      var front, p := ps[..|ps| - 1], ps[|ps| - 1];
      var mid := AfterPasses(w, front);
      && AreDrains(w, front)
      && IsListedFirst(mid.store, p.jobId, p.nowMs) && IsPassOf(|mid.actors|, p.steps)
  }

  /** `job` has rested longer than every other row that a recovery may ever select. */
  predicate IsOldest(s: Store, job: ImageJob) {
    forall id | id in s.jobs && id != job.request.jobId && !IsSettled(s.jobs[id].state) ::
      job.updatedAtMs < s.jobs[id].updatedAtMs
  }

  predicate IsSettled(state: JobState) {
    IsFinal(state) || state.Failed? || state.ManualReview?
  }

  /**
   One compensation without attempts stops all recovery: once it is due and the oldest unsettled row, every
   pass of the drainer takes it and changes nothing, so no other row is ever recovered.
   */
  lemma {:induction false} ExhaustedRowStarvesTheRest(w: World, job: ImageJob, ps: seq<Pass>)
    requires Agrees(w.store) && Lookup(w.store.jobs, job.request.jobId) == Some(job)
    requires IsExhausted(job) && IsOldest(w.store, job)
    requires AreDrains(w, ps) && forall p | p in ps :: IsDue(job, p.nowMs)
    ensures AfterPasses(w, ps).store == w.store && AfterPasses(w, ps).files == w.files
    ensures forall p | p in ps :: p.jobId == job.request.jobId
  {
    hide Agrees, IsExhausted, IsDue, IsPassOf, IsOldest, IsListedFirst, AfterPass;
    if ps != [] {
      var front, p := ps[..|ps| - 1], ps[|ps| - 1];
      ExhaustedRowStarvesTheRest(w, job, front);
      var mid := AfterPasses(w, front);
      OldestIsListed(mid.store, job, p.jobId, p.nowMs);
      ExhaustedPass(mid, job, p);
      assert ps == front + [p];
    }
  }

  lemma OldestIsListed(s: Store, job: ImageJob, listed: string, nowMs: int)
    requires Lookup(s.jobs, job.request.jobId) == Some(job)
    requires IsExhausted(job) && IsDue(job, nowMs) && IsOldest(s, job) && IsListedFirst(s, listed, nowMs)
    ensures listed == job.request.jobId
  {
    assert NeedsRecovery(job, nowMs);
    assert !IsSettled(s.jobs[listed].state);
  }

  lemma ExhaustedPass(w: World, job: ImageJob, p: Pass)
    requires Agrees(w.store) && Lookup(w.store.jobs, job.request.jobId) == Some(job) && IsExhausted(job)
    requires p.jobId == job.request.jobId && IsListedFirst(w.store, p.jobId, p.nowMs)
    requires IsPassOf(|w.actors|, p.steps)
    ensures AfterPass(w, p).store == w.store && AfterPass(w, p).files == w.files
  {
    hide Agrees, Next, IsExhausted, NeedsRecovery, RunAll, IsPassOf, IsSound;
    CurrentIsSound(w.store, job);
    RecoveryStarts(w, job, p.nowMs);
    ExhaustedNeverChanges(Next(w, StartRecovery(p.jobId, p.nowMs)), |w.actors|, job, p.steps);
  }
}
