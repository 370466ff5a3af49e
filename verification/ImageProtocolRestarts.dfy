/**
 What a recovery makes of a job that a crash has interrupted before its publication was complete: the exact
 end, when its looks and calls all work, on every row outside the compensation states.
 */
module ImageProtocolRestarts {
  import opened Outcomes
  import opened ImageJobPolicy
  import opened ImageJobEffects
  import opened ImageJobRecovery
  import opened ImageStores
  import opened ImageStoreAgreement
  import opened ImageProtocol
  import opened ImageProtocolSafety
  import opened ImageProtocolRuns
  import opened ImageProtocolDrives
  import opened ImageProtocolProgress
  import opened ImageProtocolCompensation
  import opened ImageProtocolRecovery
  import opened ImageProtocolStarvation

  /** A row that works on its image or has begun to publish it, and that nobody holds any more. */
  predicate IsInterrupted(job: ImageJob, nowMs: int) {
    && (job.state == Processing || job.state == OutputReady || job.state == Publishing)
    && NeedsRecovery(job, nowMs)
  }

  lemma InterruptedIsUnheld(job: ImageJob, nowMs: int)
    requires IsSound(job) && IsInterrupted(job, nowMs)
    ensures IsWorking(job.state) && job.lease.Some? && !HasLiveLease(job, nowMs)
  {
    hide IsRequest, IsErrorCode, IsLease;
  }

  /** The plan for an interrupted row, all looks working: what counts is the public file alone. */
  lemma InterruptedPlan(w: World, job: ImageJob, env: Env)
    requires IsSound(job) && IsInterrupted(job, env.atMs) && IsPrompt(env, job)
    requires Lookup(w.store.jobs, job.request.jobId) == Some(job)
    ensures PlanRestart(job, EvidenceOf(w, job, env), env.atMs)
            == Ok(if FinalOf(job) in w.files then DoRequireCompensation else CleanPrivateThenRecoverRetry)
  {
    InterruptedIsUnheld(job, env.atMs);
    WorkingIsUnregistered(w.store, job);
    var e := EvidenceOf(w, job, env);
    SeenAsTheyAre(w, job, env);
    hide IsSound, EvidenceOf, IsInterrupted, PlanState, HasReadyRegistration, IsLease;
    PlannerAnswersExactly(job, e, env.atMs);
    WorkingPlanIsExact(job, e, env.atMs);
  }

  lemma SeenAsTheyAre(w: World, job: ImageJob, env: Env)
    requires env.works
    ensures var e := EvidenceOf(w, job, env);
            && e.finalArtifact == (if FinalOf(job) in w.files then Present else Absent)
            && e.privateArtifact != Unobservable
            && e.readyRegistration == (if HasReadyRegistration(w.store, job.request.jobId) then Present else Absent)
  {
    hide HasReadyRegistration;
  }

  lemma WorkingIsUnregistered(s: Store, job: ImageJob)
    requires IsSound(job) && IsWorking(job.state) && Lookup(s.jobs, job.request.jobId) == Some(job)
    ensures !HasReadyRegistration(s, job.request.jobId)
  {
    NotAttachable(job);
    hide IsSound, IsAttachableJob;
  }

  // ---------------------------------------------------------------------------------------------
  // The retry
  // ---------------------------------------------------------------------------------------------

  lemma RetrySeen(w: World, i: nat, env: Env)
    requires i < |w.actors| && (w.actors[i].Requeueing? || w.actors[i].Sweeping?)
    ensures var o := RecoverStep(w, w.actors[i], env);
            Next(w, Proceed(i, env)) == World(o.store, o.files, o.strays, w.actors[i := o.actor])
  {
    hide RecoverStep;
  }

  /** What a retry leaves: the row back in the queue, due at once, or failed when its attempts are used up. */
  predicate IsRetried(job: ImageJob, atMs: int, row: ImageJob) {
    && IsSound(row) && row.request == job.request && row.attemptCount == job.attemptCount
    && row.updatedAtMs == atMs && row.version == job.version + 1 && row.lease == None
    && row.lastErrorCode == Some("WORKER_RESTARTED")
    && (if job.attemptCount < job.request.maxAttempts
        then row.state == Queued && row.nextAttemptAtMs == Some(atMs)
        else row.state == Failed && row.failedAtMs == Some(atMs))
  }

  lemma RetryAccepted(job: ImageJob, atMs: int) returns (row: ImageJob)
    requires IsSound(job) && IsWorking(job.state) && job.lease.Some? && !HasLiveLease(job, atMs)
    requires job.updatedAtMs <= atMs <= MAX_SAFE_INTEGER && job.version < MAX_SAFE_INTEGER
    ensures var retry := RecoverRetry(true, true, true, atMs, "WORKER_RESTARTED");
            Transition(job, Command(job.version, atMs, retry)) == Ok(row)
    ensures IsRetried(job, atMs, row)
  {
    assert IsErrorCode("WORKER_RESTARTED");
    hide IsRequest, IsErrorCode, IsLeaseOwner, IsHexText;
    row := AcceptedNext(
      job, Command(job.version, atMs, RecoverRetry(true, true, true, atMs, "WORKER_RESTARTED")));
  }

  lemma CleanedUp(w: World, i: nat, job: ImageJob, e: Evidence, env: Env)
    requires i < |w.actors| && w.actors[i] == Acting(job, env.atMs, e) && env.works
    requires PlanRestart(job, e, env.atMs) == Ok(CleanPrivateThenRecoverRetry)
    ensures Next(w, Proceed(i, env)) == Moved(w, i, w.store, w.files - {TempOf(job)}, Requeueing(job, env.atMs))
  {
    RecoverySeen(w, i, env);
    hide Next, PlanRestart;
  }

  lemma Retried(w: World, i: nat, job: ImageJob, env: Env) returns (row: ImageJob)
    requires IsCurrent(w, i, Requeueing(job, env.atMs), job) && IsSound(job) && IsWorking(job.state)
    requires job.lease.Some? && !HasLiveLease(job, env.atMs) && IsPrompt(env, job) && job.version < MAX_SAFE_INTEGER
    ensures IsRetried(job, env.atMs, row)
    ensures Next(w, Proceed(i, env))
            == Moved(
                 w, i, WithRow(w.store, job.request.jobId, row), w.files,
                 if row.state == Queued then Driving(row) else Sweeping({InputOf(job)}))
  {
    hide IsSound, Transition, CallTransition, IsLease, Next, HasLiveLease, IsRetried;
    row := RetryAccepted(job, env.atMs);
    Commanded(w.store, job, env.atMs, RecoverRetry(true, true, true, env.atMs, "WORKER_RESTARTED"), env, row);
    RetrySeen(w, i, env);
  }

  /** Look, decide, clean up, requeue. */
  lemma InterruptedIsRetried(w: World, job: ImageJob, env: Env) returns (row: ImageJob, after: World)
    requires Lookup(w.store.jobs, job.request.jobId) == Some(job) && IsSound(job)
    requires IsInterrupted(job, env.atMs) && FinalOf(job) !in w.files
    requires IsPrompt(env, job) && job.version < MAX_SAFE_INTEGER
    ensures Drives(Next(w, StartRecovery(job.request.jobId, env.atMs)), |w.actors|, env, 6, after)
    ensures IsRetried(job, env.atMs, row)
    ensures after == WithRecovery(
                       w, WithRow(w.store, job.request.jobId, row), w.files - {TempOf(job)},
                       if row.state == Queued then Driving(row) else Sweeping({InputOf(job)}))
  {
    hide Drives, IsSound, PlanRestart, EvidenceOf, Next, IsPrompt, IsRetried, NeedsRecovery, HasLiveLease, WithRow;
    RevealPrompt(env, job);
    var i, started := |w.actors|, Next(w, StartRecovery(job.request.jobId, env.atMs));
    var mid := AtAction(w, job, env);
    ComesToAction(w, job, env);
    InterruptedPlan(w, job, env);
    InterruptedIsUnheld(job, env.atMs);
    CleanedUp(mid, i, job, EvidenceOf(w, job, env), env);
    DrivesOn(started, i, env, 4, mid, env.file);
    RecoveryMoves(
      w, w.store, w.files, mid.actors[i], w.store, w.files - {TempOf(job)}, Requeueing(job, env.atMs));
    var cleaned := WithRecovery(w, w.store, w.files - {TempOf(job)}, Requeueing(job, env.atMs));
    row := Retried(cleaned, i, job, env);
    DrivesOn(started, i, env, 5, cleaned, env.file);
    after := Next(cleaned, Proceed(i, env));
    RecoveryMoves(
      w, w.store, w.files - {TempOf(job)}, cleaned.actors[i], WithRow(w.store, job.request.jobId, row),
      w.files - {TempOf(job)}, after.actors[i]);
  }

  lemma RevealPrompt(env: Env, job: ImageJob)
    requires IsPrompt(env, job)
    ensures env.works && !env.replyLost && env.readable && job.updatedAtMs <= env.atMs <= MAX_SAFE_INTEGER
  {
  }

  // ---------------------------------------------------------------------------------------------
  // The three ends
  // ---------------------------------------------------------------------------------------------

  /** Every call works and answers, its leases are good ones, the worker reports a picture, and there is room. */
  predicate IsSmoothFor(w: World, job: ImageJob, env: Env) {
    && IsPrompt(env, job) && IsSmooth(env, env.atMs)
    && HasRoom(w.store, job.request, env.capacity) && job.version + 6 <= MAX_SAFE_INTEGER
  }

  /** The job is ready after one more attempt, registered and served; its private files are gone. */
  ghost predicate EndsServed(w: World, job: ImageJob, env: Env, after: World) {
    exists ready: ImageJob ::
      && IsSound(ready) && ready.state == Ready && ready.request == job.request
      && ready.attemptCount == job.attemptCount + 1
      && ready.resultSourceWidth == Some(env.width) && ready.resultSourceHeight == Some(env.height)
      && after == WithRecovery(
                    w, AfterPublication(w.store, job, ready, env.atMs),
                    w.files - {TempOf(job), InputOf(job)} + {FinalOf(job)},
                    Done(Some(job.request.outputStorageKey)))
  }

  /** The job has failed; its private files are gone. */
  ghost predicate EndsFailed(w: World, job: ImageJob, env: Env, after: World) {
    exists row: ImageJob ::
      && IsRetried(job, env.atMs, row) && row.state == Failed
      && after == WithRecovery(
                    w, WithRow(w.store, job.request.jobId, row), w.files - {TempOf(job), InputOf(job)}, Done(None))
  }

  /** The job is compensated; all its files are gone. */
  ghost predicate EndsCompensated(w: World, job: ImageJob, after: World) {
    exists row: ImageJob ::
      && row.request == job.request && row.state == Compensated
      && after == WithRecovery(
                    w, WithRow(w.store, job.request.jobId, row), w.files - AllFilesOf(job), Done(None))
  }

  lemma SweepSeen(w: World, i: nat, rest: set<File>, env: Env)
    requires i < |w.actors| && w.actors[i] == Sweeping(rest) && env.works
    ensures Next(w, Proceed(i, env)) ==
              if env.file in rest then Moved(w, i, w.store, w.files - {env.file}, Sweeping(rest - {env.file}))
              else Moved(w, i, w.store, w.files, Done(None))
  {
    RetrySeen(w, i, env);
    hide Next;
  }

  lemma InputIsSwept(w: World, i: nat, job: ImageJob, env: Env)
    requires i < |w.actors| && w.actors[i] == Sweeping({InputOf(job)}) && env.works
    ensures Drives(w, i, env, 2, Moved(w, i, w.store, w.files - {InputOf(job)}, Done(None)))
  {
    hide Next, Drives;
    var input := InputOf(job);
    DriveStarts(w, i, env);
    SweepSeen(w, i, {input}, env.(file := input));
    DrivesOn(w, i, env, 0, w, input);
    assert {input} - {input} == {};
    var swept := Moved(w, i, w.store, w.files - {input}, Sweeping({}));
    SweepSeen(swept, i, {}, env);
    DrivesOn(w, i, env, 1, swept, env.file);
    LastMoveCounts(w, i, w.store, w.files - {input}, Sweeping({}), w.store, w.files - {input}, Done(None));
  }

  lemma SpentRowFails(w: World, job: ImageJob, env: Env) returns (after: World)
    requires Lookup(w.store.jobs, job.request.jobId) == Some(job) && IsSound(job)
    requires IsInterrupted(job, env.atMs) && FinalOf(job) !in w.files
    requires IsPrompt(env, job) && job.version < MAX_SAFE_INTEGER && !HasAttemptsLeft(job)
    ensures Drives(Next(w, StartRecovery(job.request.jobId, env.atMs)), |w.actors|, env, 8, after)
    ensures EndsFailed(w, job, env, after)
  {
    hide Drives, IsSound, Next, IsPrompt, WithRow, IsInterrupted;
    RevealPrompt(env, job);
    var i, started := |w.actors|, Next(w, StartRecovery(job.request.jobId, env.atMs));
    var row, mid := InterruptedIsRetried(w, job, env);
    InputIsSwept(mid, i, job, env);
    var s, left := WithRow(w.store, job.request.jobId, row), w.files - {TempOf(job)};
    RecoveryMoves(w, s, left, Sweeping({InputOf(job)}), s, left - {InputOf(job)}, Done(None));
    after := WithRecovery(w, s, left - {InputOf(job)}, Done(None));
    DrivesCompose(started, i, env, 6, mid, 2, after);
    assert left - {InputOf(job)} == w.files - {TempOf(job), InputOf(job)};
  }

  lemma DrivingGoesOn(w: World, i: nat, row: ImageJob, env: Env)
    requires i < |w.actors| && w.actors[i] == Driving(row) && row.state.Queued?
    ensures Next(w, Proceed(i, env)) == Moved(w, i, w.store, w.files, Claiming(row))
  {
    DriveSeen(w, i, env);
    hide Next;
  }

  /** A recovery that drives a queued row of the job, in a world that differs by that row and private files. */
  lemma DrivenIsServed(w: World, job: ImageJob, row: ImageJob, left: set<File>, env: Env) returns (after: World)
    requires var mid := WithRecovery(w, WithRow(w.store, job.request.jobId, row), left, Driving(row));
             IsGood(mid) && row.request == job.request && row.attemptCount == job.attemptCount
    requires IsWaiting(row, env.atMs) && IsSmooth(env, env.atMs) && HasRoom(w.store, job.request, env.capacity)
    requires left - {TempOf(job), InputOf(job)} == w.files - {TempOf(job), InputOf(job)}
    ensures var mid := WithRecovery(w, WithRow(w.store, job.request.jobId, row), left, Driving(row));
            Drives(mid, |w.actors|, env, 8, after)
    ensures EndsServed(w, job, env, after) && IsServed(after, job.request.outputStorageKey)
  {
    hide Drives, Next, IsGood, IsWaiting, IsSmooth, HasRoom, IsServed, IsCompletedFrom, IsSound;
    RevealWaiting(row, env.atMs);
    var i, s := |w.actors|, WithRow(w.store, job.request.jobId, row);
    var mid := WithRecovery(w, s, left, Driving(row));
    DriveStarts(mid, i, env);
    DrivingGoesOn(mid, i, row, env);
    DrivesOn(mid, i, env, 0, mid, env.file);
    RecoveryMoves(w, s, left, Driving(row), s, left, Claiming(row));
    var claiming := WithRecovery(w, s, left, Claiming(row));
    DrivesStayGood(mid, i, env, 1, claiming);
    UploadsDecideRoom(w.store, s, job.request, env.capacity);
    after := QueuedCompletes(claiming, i, row, env.atMs, env);
    DrivesCompose(mid, i, env, 1, claiming, 7, after);
    ServedAfterRetry(w, job, row, left, env, after);
  }

  lemma RevealWaiting(row: ImageJob, atMs: int)
    requires IsWaiting(row, atMs)
    ensures row.state.Queued?
  {
  }

  lemma ServedAfterRetry(w: World, job: ImageJob, row: ImageJob, left: set<File>, env: Env, after: World)
    requires row.request == job.request && row.attemptCount == job.attemptCount
    requires left - {TempOf(job), InputOf(job)} == w.files - {TempOf(job), InputOf(job)}
    requires var claiming := WithRecovery(w, WithRow(w.store, job.request.jobId, row), left, Claiming(row));
             IsCompletedFrom(claiming, |w.actors|, row, env.atMs, env, after)
    ensures EndsServed(w, job, env, after)
  {
    hide IsSound;
    var s, answer := WithRow(w.store, job.request.jobId, row), Done(Some(job.request.outputStorageKey));
    var claiming := WithRecovery(w, s, left, Claiming(row));
    var ready: ImageJob :|
      && IsSound(ready) && ready.state == Ready && ready.request == row.request
      && ready.attemptCount == row.attemptCount + 1
      && ready.resultSourceWidth == Some(env.width) && ready.resultSourceHeight == Some(env.height)
      && after == Moved(
                    claiming, |w.actors|, AfterPublication(s, row, ready, env.atMs),
                    left - {TempOf(row), InputOf(row)} + {FinalOf(row)}, answer);
    assert s.jobs[job.request.jobId := ready] == w.store.jobs[job.request.jobId := ready];
    assert claiming.actors[|w.actors| := answer] == w.actors + [answer];
  }

  /** Look, decide: the public file of an interrupted row is there, so it is compensated. */
  lemma PublishedRowOpens(w: World, job: ImageJob, env: Env) returns (after: World)
    requires Lookup(w.store.jobs, job.request.jobId) == Some(job) && IsSound(job)
    requires IsInterrupted(job, env.atMs) && FinalOf(job) in w.files && IsPrompt(env, job)
    ensures Drives(Next(w, StartRecovery(job.request.jobId, env.atMs)), |w.actors|, env, 5, after)
    ensures after == WithRecovery(w, w.store, w.files, StartingCompensation(job, "", RecoveryLoop(job)))
  {
    hide Drives, IsSound, Next, IsPrompt, PlanRestart, EvidenceOf, NeedsRecovery;
    var i, started := |w.actors|, Next(w, StartRecovery(job.request.jobId, env.atMs));
    var mid := AtAction(w, job, env);
    ComesToAction(w, job, env);
    InterruptedPlan(w, job, env);
    Acted(mid, i, job, env.atMs, EvidenceOf(w, job, env), env, DoRequireCompensation);
    DrivesOn(started, i, env, 4, mid, env.file);
    var opening := StartingCompensation(job, "", RecoveryLoop(job));
    RecoveryMoves(w, w.store, w.files, mid.actors[i], w.store, w.files, opening);
    after := WithRecovery(w, w.store, w.files, opening);
  }

  /** The public file of an interrupted row is there: the recovery compensates. */
  lemma PublishedRowIsCompensated(w: World, job: ImageJob, env: Env) returns (n: nat, after: World)
    requires IsGood(w) && Lookup(w.store.jobs, job.request.jobId) == Some(job) && IsSound(job)
    requires IsInterrupted(job, env.atMs) && FinalOf(job) in w.files
    requires IsPrompt(env, job) && job.version + 3 <= MAX_SAFE_INTEGER
    ensures Drives(Next(w, StartRecovery(job.request.jobId, env.atMs)), |w.actors|, env, n, after) && n <= 13
    ensures EndsCompensated(w, job, after)
  {
    hide Drives, IsSound, Next, IsPrompt, IsGood, IsOutcome, IsInterrupted, EndsCompensated, Refusal;
    var i, started := |w.actors|, Next(w, StartRecovery(job.request.jobId, env.atMs));
    EventIsGood(w, StartRecovery(job.request.jobId, env.atMs));
    var w1 := PublishedRowOpens(w, job, env);
    DrivesStayGood(started, i, env, 5, w1);
    var m, end := CompensationOutcome(w1, i, job, "", RecoveryLoop(job), env);
    n, after := 5 + m, end;
    DrivesCompose(started, i, env, 5, w1, m, after);
    InterruptedIsNotRefused(job, env.atMs);
    OpenedEndsCompensated(w, job, w1.actors[i], env.atMs, after);
  }

  lemma InterruptedIsNotRefused(job: ImageJob, nowMs: int)
    requires IsSound(job) && IsInterrupted(job, nowMs)
    ensures Refusal(job, nowMs).None?
  {
    hide IsErrorCode, IsLease;
  }

  lemma OpenedEndsCompensated(w: World, job: ImageJob, opening: Actor, atMs: int, after: World)
    requires Refusal(job, atMs).None?
    requires IsOutcome(
               WithRecovery(w, w.store, w.files, opening), |w.actors|, job, RecoveryLoop(job), atMs, after)
    ensures EndsCompensated(w, job, after)
  {
    hide WithRow, AllFilesOf;
    var row: ImageJob :|
      row.request == job.request && after.store == WithRow(w.store, job.request.jobId, row)
      && IsLeftBy(job, atMs, row);
    assert (w.actors + [opening])[|w.actors| := Done(None)] == w.actors + [Done(None)];
  }

  /** No public file and attempts left: the recovery requeues the row and drives it to its end. */
  lemma InterruptedIsServed(w: World, job: ImageJob, env: Env) returns (after: World)
    requires IsGood(w) && Lookup(w.store.jobs, job.request.jobId) == Some(job) && IsSound(job)
    requires IsInterrupted(job, env.atMs) && FinalOf(job) !in w.files && HasAttemptsLeft(job)
    requires IsSmoothFor(w, job, env)
    ensures Drives(Next(w, StartRecovery(job.request.jobId, env.atMs)), |w.actors|, env, 14, after)
    ensures EndsServed(w, job, env, after) && IsServed(after, job.request.outputStorageKey)
  {
    hide Drives, IsSound, Next, IsPrompt, IsGood, IsSmooth, HasRoom, EndsServed, IsServed, IsInterrupted;
    var i, started := |w.actors|, Next(w, StartRecovery(job.request.jobId, env.atMs));
    EventIsGood(w, StartRecovery(job.request.jobId, env.atMs));
    var row, mid := InterruptedIsRetried(w, job, env);
    DrivesStayGood(started, i, env, 6, mid);
    after := DrivenIsServed(w, job, row, w.files - {TempOf(job)}, env);
    DrivesCompose(started, i, env, 6, mid, 8, after);
  }

  /** A due row in the queue is driven to its end. */
  lemma QueuedIsServed(w: World, job: ImageJob, env: Env) returns (after: World)
    requires IsGood(w) && Lookup(w.store.jobs, job.request.jobId) == Some(job) && IsSound(job)
    requires job.state == Queued && NeedsRecovery(job, env.atMs) && IsSmoothFor(w, job, env)
    ensures Drives(Next(w, StartRecovery(job.request.jobId, env.atMs)), |w.actors|, env, 13, after)
    ensures EndsServed(w, job, env, after) && IsServed(after, job.request.outputStorageKey)
  {
    hide Drives, IsSound, Next, IsGood, HasRoom, IsServed, IsCompletedFrom, NeedsRecovery, IsLease;
    var i, started := |w.actors|, Next(w, StartRecovery(job.request.jobId, env.atMs));
    EventIsGood(w, StartRecovery(job.request.jobId, env.atMs));
    QueuedIsDue(job, env.atMs);
    var mid := QueuedIsDriven(w, job, env);
    DrivesStayGood(started, i, env, 6, mid);
    after := QueuedCompletes(mid, i, job, env.atMs, env);
    DrivesCompose(started, i, env, 6, mid, 7, after);
    SameRow(w.store, job);
    ServedAfterRetry(w, job, job, w.files, env, after);
  }

  lemma EnqueueAccepted(job: ImageJob, atMs: int) returns (row: ImageJob)
    requires IsSound(job) && job.state == Requested && job.updatedAtMs <= atMs <= MAX_SAFE_INTEGER
    requires job.version < MAX_SAFE_INTEGER
    ensures Transition(job, Command(job.version, atMs, Enqueue(atMs))) == Ok(row)
    ensures IsSound(row) && row.state == Queued && row.request == job.request
    ensures row.attemptCount == job.attemptCount && row.version == job.version + 1
    ensures row.updatedAtMs == atMs && row.nextAttemptAtMs == Some(atMs)
  {
    hide IsRequest, IsErrorCode, IsLeaseOwner, IsHexText;
    row := AcceptedNext(job, Command(job.version, atMs, Enqueue(atMs)));
  }

  lemma Enqueued(w: World, i: nat, job: ImageJob, e: Evidence, env: Env) returns (row: ImageJob)
    requires IsCurrent(w, i, Acting(job, env.atMs, e), job) && IsSound(job) && job.state == Requested
    requires PlanRestart(job, e, env.atMs) == Ok(DoEnqueue) && IsPrompt(env, job) && job.version < MAX_SAFE_INTEGER
    ensures Next(w, Proceed(i, env)) == Moved(w, i, WithRow(w.store, job.request.jobId, row), w.files, Driving(row))
    ensures IsSound(row) && row.state == Queued && row.request == job.request
    ensures row.attemptCount == job.attemptCount && row.version == job.version + 1
    ensures row.updatedAtMs == env.atMs && row.nextAttemptAtMs == Some(env.atMs)
  {
    hide IsSound, Transition, CallTransition, IsLease, Next, PlanRestart;
    row := EnqueueAccepted(job, env.atMs);
    Commanded(w.store, job, env.atMs, Enqueue(env.atMs), env, row);
    RecoverySeen(w, i, env);
  }

  /** A row that was never queued is queued and driven to its end. */
  lemma RequestedIsServed(w: World, job: ImageJob, env: Env) returns (after: World)
    requires IsGood(w) && Lookup(w.store.jobs, job.request.jobId) == Some(job) && IsSound(job)
    requires job.state == Requested && NeedsRecovery(job, env.atMs) && IsSmoothFor(w, job, env)
    ensures Drives(Next(w, StartRecovery(job.request.jobId, env.atMs)), |w.actors|, env, 13, after)
    ensures EndsServed(w, job, env, after) && IsServed(after, job.request.outputStorageKey)
  {
    hide Drives, IsSound, Next, IsGood, HasRoom, IsServed, NeedsRecovery, PlanRestart, EvidenceOf, IsLease, WithRow,
         EndsServed;
    var i, started := |w.actors|, Next(w, StartRecovery(job.request.jobId, env.atMs));
    EventIsGood(w, StartRecovery(job.request.jobId, env.atMs));
    ComesToAction(w, job, env);
    var mid := AtAction(w, job, env);
    var plan := WorkingPlan(w, job, env);
    var row := Enqueued(mid, i, job, EvidenceOf(w, job, env), env);
    DrivesOn(started, i, env, 4, mid, env.file);
    var s := WithRow(w.store, job.request.jobId, row);
    RecoveryMoves(w, w.store, w.files, mid.actors[i], s, w.files, Driving(row));
    var driving := WithRecovery(w, s, w.files, Driving(row));
    DrivesStayGood(started, i, env, 5, driving);
    after := DrivenIsServed(w, job, row, w.files, env);
    DrivesCompose(started, i, env, 5, driving, 8, after);
  }

  /**
   The exact end of a recovery over a row outside the compensation states, whose looks and calls all work.
   An interrupted job goes into compensation if and only if its public file is there, and ends compensated;
   otherwise it fails if its attempts are used up, and else is retried and ends served, as does every job
   that was not yet claimed.
   */
  lemma RestartOutcome(w: World, job: ImageJob, env: Env) returns (n: nat, after: World)
    requires IsGood(w) && Lookup(w.store.jobs, job.request.jobId) == Some(job)
    requires !job.state.CompensationRequired? && !job.state.Compensating?
    requires NeedsRecovery(job, env.atMs) && IsSmoothFor(w, job, env)
    ensures Drives(Next(w, StartRecovery(job.request.jobId, env.atMs)), |w.actors|, env, n, after) && n <= 14
    ensures if job.state != Requested && job.state != Queued && FinalOf(job) in w.files then
              EndsCompensated(w, job, after)
            else if job.state != Requested && job.state != Queued && job.request.maxAttempts <= job.attemptCount then
              EndsFailed(w, job, env, after)
            else
              EndsServed(w, job, env, after) && IsServed(after, job.request.outputStorageKey)
  {
    hide Drives, IsSound, Next, IsGood, HasRoom, IsServed, NeedsRecovery, Agrees, EndsServed, EndsFailed,
         EndsCompensated, IsPrompt, IsSmooth;
    GoodAgrees(w);
    CurrentIsSound(w.store, job);
    UnsettledStates(job, env.atMs);
    if job.state == Requested {
      n := 13;
      after := RequestedIsServed(w, job, env);
    } else if job.state == Queued {
      n := 13;
      after := QueuedIsServed(w, job, env);
    } else if FinalOf(job) in w.files {
      n, after := PublishedRowIsCompensated(w, job, env);
    } else if HasAttemptsLeft(job) {
      n := 14;
      after := InterruptedIsServed(w, job, env);
    } else {
      n := 8;
      after := SpentRowFails(w, job, env);
    }
  }

  lemma UnsettledStates(job: ImageJob, nowMs: int)
    requires NeedsRecovery(job, nowMs) && !job.state.CompensationRequired? && !job.state.Compensating?
    ensures job.state == Requested || job.state == Queued || IsInterrupted(job, nowMs)
  {
  }
}
