/**
 What a recovery makes of a row in compensation. An expired compensation takes two of them: the first
 removes the files and is refused, the second finds them gone.
 */
module ImageProtocolRecovery {
  import opened Outcomes
  import opened ImageJobPolicy
  import opened ImageJobEffects
  import opened ImageJobRecovery
  import opened ImageStores
  import opened ImageStoreAgreement
  import opened ImageProtocol
  import opened ImageProtocolSafety
  import opened ImageProtocolRuns
  import opened ImageProtocolDrives
  import opened ImageProtocolCompensation

  // ---------------------------------------------------------------------------------------------
  // An expired compensation, however its calls fare
  // ---------------------------------------------------------------------------------------------

  predicate IsOwn(caller: Caller, job: ImageJob) {
    forall held | held in HeldBy(caller) :: held.request == job.request
  }

  /** The call is in a compensation of the row `job`, or behind it. */
  predicate IsCompensating(a: Actor, job: ImageJob) {
    match a
    case StartingCompensation(row, _, caller) => row == job && IsOwn(caller, job)
    case CheckingSafety(row, caller) => row == job && IsOwn(caller, job)
    case RecordingUnsafe(row, _, caller) => row == job && IsOwn(caller, job)
    case Unlinking(row, caller, _) => row == job && IsOwn(caller, job)
    case Completing(row, caller) => row == job && IsOwn(caller, job)
    case ReadingAfterFailure(before, finalPublished, _) => finalPublished && before.request == job.request
    case ReadingForReview(before, _) => before.request == job.request
    case Done(_) => true
    case _ => false
  }

  lemma ExpiredHolderIsRefused(job: ImageJob, c: Command)
    requires IsSound(job) && !HasLiveLease(job, c.atMs) && HolderToken(c.action).Some?
    ensures Transition(job, c).Err?
  {
    hide IsSound, Transition, Effect;
    if Transition(job, c).Ok? {
      AcceptedIsSoundStep(job, c);
    }
  }

  lemma ResumesOwn(caller: Caller, job: ImageJob, failure: Option<string>)
    requires IsOwn(caller, job)
    ensures IsCompensating(Resume(caller, failure), job)
  {
  }

  lemma FailedDriverIsOwn(job: ImageJob)
    ensures IsOwn(FailedDriver, job)
  {
  }

  lemma ExpiredStep(w: World, i: nat, job: ImageJob, env: Env)
    requires i < |w.actors| && IsCompensating(w.actors[i], job)
    requires Lookup(w.store.jobs, job.request.jobId) == Some(job) && IsSound(job)
    requires job.state.Compensating? && !HasLiveLease(job, env.atMs)
    ensures var next := Next(w, Proceed(i, env));
            next.store == w.store && |next.actors| == |w.actors| && IsCompensating(next.actors[i], job)
  {
    hide Transition, IsSound, CompensationSafety, Resume, SafeCode, IsReferenceFailure, IsOwn, HasLiveLease;
    CompensatingIsHeld(job);
    var a := w.actors[i];
    if a.StartingCompensation? || a.CheckingSafety? || a.RecordingUnsafe? || a.Unlinking? || a.Completing? {
      CompensateSeen(w, i, env);
      ExpiredCompensateStep(w, i, job, env);
    } else {
      FailedDriverIsOwn(job);
    }
  }

  lemma ExpiredCompensateStep(w: World, i: nat, job: ImageJob, env: Env)
    requires i < |w.actors| && IsCompensating(w.actors[i], job) && IsCompensation(w.actors[i])
    requires Lookup(w.store.jobs, job.request.jobId) == Some(job) && IsSound(job)
    requires job.state.Compensating? && !HasLiveLease(job, env.atMs)
    ensures var o := CompensateStep(w, w.actors[i], env);
            o.store == w.store && IsCompensating(o.actor, job)
  {
    hide Transition, IsSound, CompensationSafety, Resume, SafeCode, IsOwn, HasLiveLease;
    CompensatingIsHeld(job);
    var a := w.actors[i];
    ExpiredHolderIsRefused(job, Command(job.version, env.atMs, MarkCompensated(TokenOf(job), true, true)));
    if a.RecordingUnsafe? {
      var action := RecordCompensationFailure(TokenOf(job), SafeCode(a.failure), env.atMs + env.leaseMs);
      ExpiredHolderIsRefused(job, Command(job.version, env.atMs, action));
    }
    forall failure: Option<string>
      ensures IsCompensating(Resume(a.caller, failure), job)
    {
      ResumesOwn(a.caller, job, failure);
    }
  }

  /**
   Once the lease of a compensation has run out, #compensatePublishedJob can no longer change the row:
   however its calls and those of its caller fare, they leave the ledger as it was.
   */
  lemma {:induction false} ExpiredCompensationNeverCompletes(w: World, i: nat, job: ImageJob, es: seq<Event>)
    requires i < |w.actors| && IsCompensating(w.actors[i], job)
    requires Lookup(w.store.jobs, job.request.jobId) == Some(job) && IsSound(job) && job.state.Compensating?
    requires forall e | e in es :: e.Proceed? && e.i == i && !HasLiveLease(job, e.env.atMs)
    ensures var after := RunAll(w, es);
            after.store == w.store && |after.actors| == |w.actors| && IsCompensating(after.actors[i], job)
  {
    hide Next, IsSound, IsCompensating, HasLiveLease;
    if es != [] {
      var front, e := es[..|es| - 1], es[|es| - 1];
      ExpiredCompensationNeverCompletes(w, i, job, front);
      ExpiredStep(RunAll(w, front), i, job, e.env);
    }
  }

  // ---------------------------------------------------------------------------------------------
  // The evidence
  // ---------------------------------------------------------------------------------------------

  /** What a recovery sees whose looks all fare as `env` says. */
  function EvidenceOf(w: World, job: ImageJob, env: Env): Evidence {
    Evidence(
      Observe(FinalOf(job) in w.files, env),
      MergeObservations(Observe(InputOf(job) in w.files, env), Observe(TempOf(job) in w.files, env)),
      Observe(HasReadyRegistration(w.store, job.request.jobId), env))
  }

  /** The world with one more call, a recovery now at `a`. */
  function WithRecovery(w: World, s: Store, files: set<File>, a: Actor): World {
    World(s, files, w.strays, w.actors + [a])
  }

  lemma RecoveryStarts(w: World, job: ImageJob, nowMs: int)
    requires Lookup(w.store.jobs, job.request.jobId) == Some(job) && NeedsRecovery(job, nowMs)
    ensures Next(w, StartRecovery(job.request.jobId, nowMs))
            == WithRecovery(w, w.store, w.files, ObservingFinal(job, nowMs))
  {
    hide NeedsRecovery;
  }

  /** A step of reconcileOnStartup, as the world sees it. */
  lemma RecoverySeen(w: World, i: nat, env: Env)
    requires i < |w.actors|
    requires
      var a := w.actors[i];
      || a.ObservingFinal? || a.ObservingInput? || a.ObservingTemp? || a.ObservingRegistration?
      || a.CheckingRecovery? || a.UnlinkingRecovery? || a.CompletingRecovery? || a.Acting?
    ensures var a := w.actors[i];
            var o := if a.Acting? then ActStep(w, a, env)
                     else if a.CheckingRecovery? || a.UnlinkingRecovery? || a.CompletingRecovery?
                     then RecoverStep(w, a, env)
                     else ObserveStep(w, a, env);
            Next(w, Proceed(i, env)) == World(o.store, o.files, o.strays, w.actors[i := o.actor])
  {
    hide ActStep, RecoverStep, ObserveStep;
  }

  lemma ArtifactsSeen(w: World, i: nat, job: ImageJob, nowMs: int, env: Env)
    requires i < |w.actors| && w.actors[i] == ObservingFinal(job, nowMs)
    ensures var e := EvidenceOf(w, job, env);
            var a := ObservingRegistration(job, nowMs, e.finalArtifact, e.privateArtifact);
            Drives(w, i, env, 3, Moved(w, i, w.store, w.files, a))
  {
    hide Next, Drives, HasReadyRegistration, MergeObservations, Observe;
    var final, input := Observe(FinalOf(job) in w.files, env), Observe(InputOf(job) in w.files, env);
    DriveStarts(w, i, env);
    RecoverySeen(w, i, env);
    DrivesOn(w, i, env, 0, w, env.file);
    var w1 := Moved(w, i, w.store, w.files, ObservingInput(job, nowMs, final));
    RecoverySeen(w1, i, env);
    DrivesOn(w, i, env, 1, w1, env.file);
    var w2 := Moved(w1, i, w.store, w.files, ObservingTemp(job, nowMs, final, input));
    RecoverySeen(w2, i, env);
    DrivesOn(w, i, env, 2, w2, env.file);
    var e := EvidenceOf(w, job, env);
    var a := ObservingRegistration(job, nowMs, e.finalArtifact, e.privateArtifact);
    LastMoveCounts(w, i, w.store, w.files, w1.actors[i], w.store, w.files, w2.actors[i]);
    LastMoveCounts(w, i, w.store, w.files, w2.actors[i], w.store, w.files, a);
  }

  lemma EvidenceSeen(w: World, i: nat, job: ImageJob, nowMs: int, env: Env)
    requires i < |w.actors| && w.actors[i] == ObservingFinal(job, nowMs)
    ensures Drives(w, i, env, 4, Moved(w, i, w.store, w.files, Acting(job, nowMs, EvidenceOf(w, job, env))))
  {
    hide Next, Drives, HasReadyRegistration, MergeObservations, Observe;
    var e := EvidenceOf(w, job, env);
    var a := ObservingRegistration(job, nowMs, e.finalArtifact, e.privateArtifact);
    ArtifactsSeen(w, i, job, nowMs, env);
    var mid := Moved(w, i, w.store, w.files, a);
    RecoverySeen(mid, i, env);
    DrivesOn(w, i, env, 3, mid, env.file);
    LastMoveCounts(w, i, w.store, w.files, a, w.store, w.files, Acting(job, nowMs, e));
  }

  // ---------------------------------------------------------------------------------------------
  // The action
  // ---------------------------------------------------------------------------------------------

  /** A row in compensation that the recovery selects at `nowMs`. */
  predicate IsRecoverable(job: ImageJob, nowMs: int) {
    && (job.state.CompensationRequired? || job.state.Compensating?)
    && NeedsRecovery(job, nowMs)
  }

  /** What the planner makes of it when every look succeeds. */
  function CompensationPlan(job: ImageJob, present: bool): RestartAction {
    if job.state.CompensationRequired? then DoClaimCompensation
    else if !present then DoRecoverCompensated
    else if HasCompensationAttemptsLeft(job) then DoRequireCompensation
    else DoManualReview
  }

  lemma PlanIsCompensation(w: World, job: ImageJob, nowMs: int, env: Env)
    requires Lookup(w.store.jobs, job.request.jobId) == Some(job) && IsSound(job)
    requires IsRecoverable(job, nowMs) && job.updatedAtMs <= nowMs <= MAX_SAFE_INTEGER && env.works
    ensures PlanRestart(job, EvidenceOf(w, job, env), nowMs) == Ok(CompensationPlan(job, FinalOf(job) in w.files))
  {
    hide IsRequest, IsErrorCode, IsLease, IsAttachable;
    assert !IsAttachableJob(job) by { NotAttachable(job); }
  }

  lemma NotAttachable(job: ImageJob)
    requires IsSound(job) && !job.state.Ready?
    ensures !IsAttachableJob(job)
  {
    SoundAttachable(job);
    hide IsSound, IsAttachableJob;
  }

  lemma ReviewAccepted(job: ImageJob, nowMs: int) returns (next: ImageJob)
    requires IsSound(job) && job.state.Compensating? && !HasLiveLease(job, nowMs)
    requires job.updatedAtMs <= nowMs <= MAX_SAFE_INTEGER && job.version < MAX_SAFE_INTEGER
    ensures var c := Command(job.version, nowMs, MarkManualReview("RECOVERY_EVIDENCE_UNKNOWN"));
            Transition(job, c) == Ok(next)
    ensures next.state.ManualReview? && next.request == job.request
    ensures next.compensationAttemptCount == job.compensationAttemptCount
  {
    hide IsRequest, IsLeaseOwner, IsHexText;
    next := AcceptedNext(job, Command(job.version, nowMs, MarkManualReview("RECOVERY_EVIDENCE_UNKNOWN")));
  }

  lemma RecoverAccepted(job: ImageJob, nowMs: int) returns (next: ImageJob)
    requires IsSound(job) && job.state.Compensating? && !HasLiveLease(job, nowMs)
    requires job.updatedAtMs <= nowMs <= MAX_SAFE_INTEGER && job.version < MAX_SAFE_INTEGER
    ensures Transition(job, Command(job.version, nowMs, RecoverCompensated(true, true))) == Ok(next)
    ensures next.state.Compensated? && next.request == job.request
  {
    hide IsRequest, IsErrorCode, IsLeaseOwner, IsHexText;
    next := AcceptedNext(job, Command(job.version, nowMs, RecoverCompensated(true, true)));
  }

  /** The recovery decides to compensate, or to remove, the row `job`. */
  lemma Acted(w: World, i: nat, job: ImageJob, nowMs: int, e: Evidence, env: Env, plan: RestartAction)
    requires i < |w.actors| && w.actors[i] == Acting(job, nowMs, e) && PlanRestart(job, e, nowMs) == Ok(plan)
    requires plan.DoClaimCompensation? || plan.DoRequireCompensation? || plan.DoRecoverCompensated?
    ensures Next(w, Proceed(i, env))
            == Moved(
                 w, i, w.store, w.files,
                 if plan.DoRecoverCompensated? then CheckingRecovery(job, nowMs)
                 else StartingCompensation(job, "", RecoveryLoop(job)))
  {
    RecoverySeen(w, i, env);
    hide Next, PlanRestart;
  }

  lemma Reviewed(w: World, i: nat, job: ImageJob, nowMs: int, env: Env) returns (next: ImageJob)
    requires IsCurrent(w, i, Acting(job, nowMs, EvidenceOf(w, job, env)), job) && IsSound(job)
    requires PlanRestart(job, EvidenceOf(w, job, env), nowMs) == Ok(DoManualReview)
    requires job.state.Compensating? && !HasLiveLease(job, nowMs) && env.works && !env.replyLost
    requires job.updatedAtMs <= nowMs <= MAX_SAFE_INTEGER && job.version < MAX_SAFE_INTEGER
    ensures Next(w, Proceed(i, env))
            == Moved(w, i, WithRow(w.store, job.request.jobId, next), w.files, Done(None))
    ensures next.state.ManualReview? && next.request == job.request
    ensures next.compensationAttemptCount == job.compensationAttemptCount
  {
    hide IsSound, Transition, CallTransition, PlanRestart, EvidenceOf, HasLiveLease, Next;
    next := ReviewAccepted(job, nowMs);
    Commanded(w.store, job, nowMs, MarkManualReview("RECOVERY_EVIDENCE_UNKNOWN"), env, next);
    RecoverySeen(w, i, env);
  }

  // ---------------------------------------------------------------------------------------------
  // The removal
  // ---------------------------------------------------------------------------------------------

  /** The world while the recovery i removes the files that `rest` still names. */
  function RecoveryRemoving(w: World, i: nat, left: set<File>, job: ImageJob, nowMs: int, rest: set<File>): World
    requires i < |w.actors|
  {
    Moved(w, i, w.store, left, UnlinkingRecovery(job, nowMs, rest))
  }

  lemma RecoveryFileGoes(
    w: World, i: nat, n: nat, left: set<File>, job: ImageJob, nowMs: int, rest: set<File>, env: Env, file: File)
    requires i < |w.actors| && env.works && file in rest
    requires Drives(w, i, env, n, RecoveryRemoving(w, i, left, job, nowMs, rest))
    ensures Drives(w, i, env, n + 1, RecoveryRemoving(w, i, left - {file}, job, nowMs, rest - {file}))
  {
    hide Next, Drives;
    var mid := RecoveryRemoving(w, i, left, job, nowMs, rest);
    RecoverySeen(mid, i, env.(file := file));
    DrivesOn(w, i, env, n, mid, file);
    LastMoveCounts(
      w, i, w.store, left, UnlinkingRecovery(job, nowMs, rest), w.store, left - {file},
      UnlinkingRecovery(job, nowMs, rest - {file}));
  }

  lemma NoRecoveryFileLeft(w: World, i: nat, n: nat, left: set<File>, job: ImageJob, nowMs: int, env: Env)
    requires i < |w.actors| && Drives(w, i, env, n, RecoveryRemoving(w, i, left, job, nowMs, {}))
    ensures Drives(w, i, env, n + 1, Moved(w, i, w.store, left, CompletingRecovery(job, nowMs)))
  {
    hide Next, Drives;
    var mid := RecoveryRemoving(w, i, left, job, nowMs, {});
    RecoverySeen(mid, i, env);
    DrivesOn(w, i, env, n, mid, env.file);
    LastMoveCounts(
      w, i, w.store, left, UnlinkingRecovery(job, nowMs, {}), w.store, left, CompletingRecovery(job, nowMs));
  }

  lemma RecoveryFoundSafe(w: World, i: nat, job: ImageJob, nowMs: int, env: Env)
    requires Agrees(w.store) && IsCurrent(w, i, CheckingRecovery(job, nowMs), job)
    requires job.state.Compensating? && env.works
    ensures Next(w, Proceed(i, env)) == RecoveryRemoving(w, i, w.files, job, nowMs, AllFilesOf(job))
  {
    hide Agrees, Next, CompensationSafety, Held, InCompensation, IsReferenced, AllFilesOf, AfterRecoveryFailure;
    UnpublishedIsUnseen(w.store, job.request.jobId);
    RecoverySeen(w, i, env);
  }

  lemma RecoveryFilesGo(w: World, i: nat, job: ImageJob, nowMs: int, env: Env)
    requires Agrees(w.store) && IsCurrent(w, i, CheckingRecovery(job, nowMs), job)
    requires job.state.Compensating? && env.works
    ensures Drives(w, i, env, 5, Moved(w, i, w.store, w.files - AllFilesOf(job), CompletingRecovery(job, nowMs)))
  {
    hide Next, Drives, Agrees;
    var final, temp, input := FinalOf(job), TempOf(job), InputOf(job);
    DriveStarts(w, i, env);
    RecoveryFoundSafe(w, i, job, nowMs, env);
    DrivesOn(w, i, env, 0, w, env.file);
    hide RecoveryRemoving, Moved;
    RecoveryFileGoes(w, i, 1, w.files, job, nowMs, AllFilesOf(job), env, final);
    assert AllFilesOf(job) - {final} == {temp, input};
    RecoveryFileGoes(w, i, 2, w.files - {final}, job, nowMs, {temp, input}, env, temp);
    assert {temp, input} - {temp} == {input};
    RecoveryFileGoes(w, i, 3, w.files - {final} - {temp}, job, nowMs, {input}, env, input);
    assert {input} - {input} == {};
    NoRecoveryFileLeft(w, i, 4, w.files - {final} - {temp} - {input}, job, nowMs, env);
    assert w.files - {final} - {temp} - {input} == w.files - AllFilesOf(job);
  }

  lemma RecoveryCompleted(w: World, i: nat, job: ImageJob, nowMs: int, env: Env) returns (next: ImageJob)
    requires Agrees(w.store) && IsCurrent(w, i, CompletingRecovery(job, nowMs), job)
    requires IsSound(job) && job.state.Compensating? && !HasLiveLease(job, nowMs)
    requires job.updatedAtMs <= nowMs <= MAX_SAFE_INTEGER && job.version < MAX_SAFE_INTEGER
    requires env.works && !env.replyLost
    ensures Next(w, Proceed(i, env))
            == Moved(w, i, WithRow(w.store, job.request.jobId, next), w.files, Done(None))
    ensures next.state.Compensated? && next.request == job.request
  {
    hide Agrees, Next, Transition, CallComplete, IsSound, HasLiveLease, AfterRecoveryFailure;
    next := RecoverAccepted(job, nowMs);
    CompletionCommanded(w.store, job, nowMs, RecoverCompensated(true, true), env, next);
    RecoverySeen(w, i, env);
  }

  // ---------------------------------------------------------------------------------------------
  // The whole recovery
  // ---------------------------------------------------------------------------------------------

  /** The row that a recovery leaves behind; `present` says whether it found the public file. */
  predicate IsLeftByRecovery(job: ImageJob, present: bool, row: ImageJob) {
    if job.state.Compensating? && !present then row.state.Compensated?
    else if job.state.Compensating? && HasCompensationAttemptsLeft(job) then row == job
    else if job.state.Compensating? then row.state.ManualReview? && !HasCompensationAttemptsLeft(row)
    else if HasCompensationAttemptsLeft(job) then row.state.Compensated?
    else row == job
  }

  /** Whether it removes the three files of the job. */
  predicate RecoveryRemovesFiles(job: ImageJob, present: bool) {
    HasCompensationAttemptsLeft(job) || (job.state.Compensating? && !present)
  }

  ghost predicate IsRecoveryOutcome(w: World, job: ImageJob, after: World) {
    var present := FinalOf(job) in w.files;
    exists row: ImageJob ::
      && row.request == job.request && IsLeftByRecovery(job, present, row)
      && after == WithRecovery(
                    w, WithRow(w.store, job.request.jobId, row),
                    if RecoveryRemovesFiles(job, present) then w.files - AllFilesOf(job) else w.files,
                    Done(None))
  }

  lemma RecoveryMoves(w: World, s: Store, files: set<File>, a: Actor, t: Store, left: set<File>, b: Actor)
    ensures Moved(WithRecovery(w, s, files, a), |w.actors|, t, left, b) == WithRecovery(w, t, left, b)
  {
  }

  /** The recovery has looked and decided. */
  lemma RecoveryDecides(w: World, job: ImageJob, env: Env) returns (after: World)
    requires Agrees(w.store) && Lookup(w.store.jobs, job.request.jobId) == Some(job)
    requires IsRecoverable(job, env.atMs) && IsPrompt(env, job)
    ensures after == WithRecovery(w, w.store, w.files, Acting(job, env.atMs, EvidenceOf(after, job, env)))
    ensures Drives(Next(w, StartRecovery(job.request.jobId, env.atMs)), |w.actors|, env, 4, after)
    ensures PlanRestart(job, EvidenceOf(after, job, env), env.atMs)
            == Ok(CompensationPlan(job, FinalOf(job) in w.files))
  {
    hide Next, Drives, Agrees, PlanRestart, IsRecoverable, IsLease, EvidenceOf, NeedsRecovery, IsSound;
    hide CompensationPlan;
    RecoverableNeeds(job, env.atMs);
    CurrentIsSound(w.store, job);
    RecoveryStarts(w, job, env.atMs);
    var looking := ObservingFinal(job, env.atMs);
    var w0 := WithRecovery(w, w.store, w.files, looking);
    EvidenceSeen(w0, |w.actors|, job, env.atMs, env);
    var acting := Acting(job, env.atMs, EvidenceOf(w0, job, env));
    RecoveryMoves(w, w.store, w.files, looking, w.store, w.files, acting);
    after := WithRecovery(w, w.store, w.files, acting);
    SameEvidence(w0, after, job, env);
    PlanIsCompensation(after, job, env.atMs, env);
  }

  lemma SameEvidence(w: World, other: World, job: ImageJob, env: Env)
    requires other.store == w.store && other.files == w.files
    ensures EvidenceOf(other, job, env) == EvidenceOf(w, job, env)
  {
    hide MergeObservations, HasReadyRegistration;
  }

  lemma RecoverableNeeds(job: ImageJob, nowMs: int)
    ensures IsRecoverable(job, nowMs) ==> NeedsRecovery(job, nowMs)
  {
  }

  /** Acting through #compensatePublishedJob. */
  lemma RecoveryCompensates(w: World, job: ImageJob, env: Env) returns (n: nat, after: World)
    requires IsGood(w) && |w.actors| > 0
    requires IsCurrent(w, |w.actors| - 1, Acting(job, env.atMs, EvidenceOf(w, job, env)), job)
    requires IsPrompt(env, job) && job.version + 3 <= MAX_SAFE_INTEGER
    requires var plan := CompensationPlan(job, FinalOf(job) in w.files);
             && (plan.DoClaimCompensation? || plan.DoRequireCompensation?)
             && PlanRestart(job, EvidenceOf(w, job, env), env.atMs) == Ok(plan)
    ensures Drives(w, |w.actors| - 1, env, n, after) && n <= 9
    ensures IsOutcome(w, |w.actors| - 1, job, RecoveryLoop(job), env.atMs, after)
  {
    hide Next, Drives, IsGood, IsPrompt, PlanRestart, EvidenceOf, IsOutcome, CompensationPlan;
    var i := |w.actors| - 1;
    var plan := CompensationPlan(job, FinalOf(job) in w.files);
    DriveStarts(w, i, env);
    Acted(w, i, job, env.atMs, EvidenceOf(w, job, env), env, plan);
    var a := StartingCompensation(job, "", RecoveryLoop(job));
    var w1 := Moved(w, i, w.store, w.files, a);
    DrivesOn(w, i, env, 0, w, env.file);
    DrivesStayGood(w, i, env, 1, w1);
    var m, end := CompensationOutcome(w1, i, job, "", RecoveryLoop(job), env);
    n, after := 1 + m, end;
    DrivesCompose(w, i, env, 1, w1, m, after);
    SameOutcome(w, i, a, job, RecoveryLoop(job), env.atMs, after);
  }

  lemma CompensationIsRecovery(w: World, a: Actor, job: ImageJob, nowMs: int, after: World)
    requires IsRecoverable(job, nowMs)
    requires !CompensationPlan(job, FinalOf(job) in w.files).DoRecoverCompensated?
    requires !CompensationPlan(job, FinalOf(job) in w.files).DoManualReview?
    requires IsOutcome(
               WithRecovery(w, w.store, w.files, a), |w.actors|, job, RecoveryLoop(job), nowMs, after)
    ensures IsRecoveryOutcome(w, job, after)
  {
    hide WithRow, AllFilesOf;
    var row: ImageJob :|
      row.request == job.request && after.store == WithRow(w.store, job.request.jobId, row)
      && IsLeftBy(job, nowMs, row);
    assert Resume(RecoveryLoop(job), RefusalCode(job, nowMs)) == Done(None);
    assert IsLeftByRecovery(job, FinalOf(job) in w.files, row);
    assert RemovesFiles(job, nowMs) == RecoveryRemovesFiles(job, FinalOf(job) in w.files);
    assert (w.actors + [a])[|w.actors| := Done(None)] == w.actors + [Done(None)];
  }

  /** Acting by removal: the public file was found gone. */
  lemma RecoveryRemoves(w: World, job: ImageJob, env: Env) returns (after: World)
    requires IsGood(w) && Lookup(w.store.jobs, job.request.jobId) == Some(job) && IsSound(job)
    requires job.state.Compensating? && !HasLiveLease(job, env.atMs)
    requires FinalOf(job) !in w.files
    requires IsPrompt(env, job) && job.version < MAX_SAFE_INTEGER
    ensures var from := WithRecovery(w, w.store, w.files, CheckingRecovery(job, env.atMs));
            Drives(from, |w.actors|, env, 6, after)
    ensures IsRecoveryOutcome(w, job, after)
  {
    hide Next, Drives, IsGood, IsSound, IsLease, HasLiveLease, AllFilesOf, Agrees;
    GoodAgrees(w);
    var i, a := |w.actors|, CheckingRecovery(job, env.atMs);
    var from := WithRecovery(w, w.store, w.files, a);
    RecoveryFilesGo(from, i, job, env.atMs, env);
    var left := w.files - AllFilesOf(job);
    var b := CompletingRecovery(job, env.atMs);
    RecoveryMoves(w, w.store, w.files, a, w.store, left, b);
    var mid := WithRecovery(w, w.store, left, b);
    var row := RecoveryCompleted(mid, i, job, env.atMs, env);
    after := Next(mid, Proceed(i, env));
    DrivesOn(from, i, env, 5, mid, env.file);
    RecoveryMoves(w, w.store, left, b, WithRow(w.store, job.request.jobId, row), left, Done(None));
    assert IsLeftByRecovery(job, false, row);
  }

  /**
   The exact end of a recovery over a row in compensation whose looks and calls all work. An expired
   compensation completes if and only if its public file is already gone; when it is there, all three files
   are removed and the row stays as it was. A due compensation without attempts stays as it was as well.
   */
  lemma RecoveryOutcome(w: World, job: ImageJob, env: Env) returns (n: nat, after: World)
    requires IsGood(w) && Lookup(w.store.jobs, job.request.jobId) == Some(job)
    requires IsRecoverable(job, env.atMs) && IsPrompt(env, job) && job.version + 3 <= MAX_SAFE_INTEGER
    ensures Drives(Next(w, StartRecovery(job.request.jobId, env.atMs)), |w.actors|, env, n, after) && n <= 13
    ensures IsRecoveryOutcome(w, job, after)
  {
    hide Next, Drives, IsGood, IsSound, IsRecoverable, IsPrompt, IsOutcome, IsRecoveryOutcome, Agrees, PlanRestart;
    hide EvidenceOf;
    GoodAgrees(w);
    var started := Next(w, StartRecovery(job.request.jobId, env.atMs));
    EventIsGood(w, StartRecovery(job.request.jobId, env.atMs));
    var mid := RecoveryDecides(w, job, env);
    DrivesStayGood(started, |w.actors|, env, 4, mid);
    var plan := CompensationPlan(job, FinalOf(job) in w.files);
    var m, end: World;
    if plan.DoClaimCompensation? || plan.DoRequireCompensation? {
      m, end := RecoveryCompensates(mid, job, env);
      CompensationIsRecovery(w, mid.actors[|w.actors|], job, env.atMs, end);
    } else {
      m, end := RecoveryRemovesOrReviews(w, mid, job, env);
    }
    n, after := 4 + m, end;
    DrivesCompose(started, |w.actors|, env, 4, mid, m, after);
  }

  lemma RecoveryRemovesOrReviews(w: World, mid: World, job: ImageJob, env: Env) returns (n: nat, after: World)
    requires IsGood(w) && Lookup(w.store.jobs, job.request.jobId) == Some(job)
    requires IsRecoverable(job, env.atMs) && IsPrompt(env, job) && job.version + 3 <= MAX_SAFE_INTEGER
    requires mid == WithRecovery(w, w.store, w.files, Acting(job, env.atMs, EvidenceOf(mid, job, env)))
    requires var plan := CompensationPlan(job, FinalOf(job) in w.files);
             && (plan.DoRecoverCompensated? || plan.DoManualReview?)
             && PlanRestart(job, EvidenceOf(mid, job, env), env.atMs) == Ok(plan)
    ensures Drives(mid, |w.actors|, env, n, after) && n <= 7
    ensures IsRecoveryOutcome(w, job, after)
  {
    hide Next, Drives, IsGood, IsSound, Agrees, PlanRestart, EvidenceOf, IsLease, IsRecoveryOutcome;
    GoodAgrees(w);
    CurrentIsSound(w.store, job);
    CompensatingIsHeld(job);
    var i := |w.actors|;
    if FinalOf(job) in w.files {
      n, after := 1, Next(mid, Proceed(i, env));
      DriveStarts(mid, i, env);
      DrivesOn(mid, i, env, 0, mid, env.file);
      RecoveryReviews(w, mid, job, env);
    } else {
      n := 7;
      after := RecoveryGoesToRemove(w, mid, job, env);
    }
  }

  lemma RecoveryReviews(w: World, mid: World, job: ImageJob, env: Env)
    requires Lookup(w.store.jobs, job.request.jobId) == Some(job) && IsSound(job) && FinalOf(job) in w.files
    requires mid == WithRecovery(w, w.store, w.files, Acting(job, env.atMs, EvidenceOf(mid, job, env)))
    requires job.state.Compensating? && !HasLiveLease(job, env.atMs) && !HasCompensationAttemptsLeft(job)
    requires PlanRestart(job, EvidenceOf(mid, job, env), env.atMs) == Ok(DoManualReview)
    requires IsPrompt(env, job) && job.version < MAX_SAFE_INTEGER
    ensures IsRecoveryOutcome(w, job, Next(mid, Proceed(|w.actors|, env)))
  {
    hide Next, IsSound, PlanRestart, EvidenceOf, IsLease, AllFilesOf, HasLiveLease, WithRow;
    var i, a := |w.actors|, Acting(job, env.atMs, EvidenceOf(mid, job, env));
    var row := Reviewed(mid, i, job, env.atMs, env);
    RecoveryMoves(w, w.store, w.files, a, WithRow(w.store, job.request.jobId, row), w.files, Done(None));
    assert IsLeftByRecovery(job, true, row);
  }

  lemma RecoveryGoesToRemove(w: World, mid: World, job: ImageJob, env: Env) returns (after: World)
    requires IsGood(w) && Lookup(w.store.jobs, job.request.jobId) == Some(job) && IsSound(job)
    requires mid == WithRecovery(w, w.store, w.files, Acting(job, env.atMs, EvidenceOf(mid, job, env)))
    requires job.state.Compensating? && !HasLiveLease(job, env.atMs) && FinalOf(job) !in w.files
    requires PlanRestart(job, EvidenceOf(mid, job, env), env.atMs) == Ok(DoRecoverCompensated)
    requires IsPrompt(env, job) && job.version < MAX_SAFE_INTEGER
    ensures Drives(mid, |w.actors|, env, 7, after) && IsRecoveryOutcome(w, job, after)
  {
    hide Next, IsSound, PlanRestart, EvidenceOf, IsPrompt, HasLiveLease, IsGood, Drives, IsRecoveryOutcome;
    var i, a := |w.actors|, Acting(job, env.atMs, EvidenceOf(mid, job, env));
    DriveStarts(mid, i, env);
    DrivesOn(mid, i, env, 0, mid, env.file);
    Acted(mid, i, job, env.atMs, EvidenceOf(mid, job, env), env, DoRecoverCompensated);
    RecoveryMoves(w, w.store, w.files, a, w.store, w.files, CheckingRecovery(job, env.atMs));
    var w1 := WithRecovery(w, w.store, w.files, CheckingRecovery(job, env.atMs));
    after := RecoveryRemoves(w, job, env);
    DrivesCompose(mid, i, env, 1, w1, 6, after);
  }

  /**
   A row that asks for compensation but has no attempt left is stuck: every recovery is refused its claim
   and leaves the ledger and the files as they were.
   */
  lemma ExhaustedRowsStall(w: World, job: ImageJob, env: Env) returns (n: nat)
    requires IsGood(w) && Lookup(w.store.jobs, job.request.jobId) == Some(job)
    requires IsExhausted(job) && IsDue(job, env.atMs)
    requires IsPrompt(env, job) && job.version + 3 <= MAX_SAFE_INTEGER
    ensures Drives(
              Next(w, StartRecovery(job.request.jobId, env.atMs)), |w.actors|, env, n,
              WithRecovery(w, w.store, w.files, Done(None)))
  {
    hide Next, Drives, IsGood, IsLease, IsDue, WithRow;
    var m, after := RecoveryOutcome(w, job, env);
    n := m;
    SameRow(w.store, job);
  }

  /**
   An expired compensation whose public file is there: the first recovery removes the files and leaves the
   row, the second one, which finds them gone, completes it.
   */
  lemma SecondRecoveryCompletes(w: World, job: ImageJob, env: Env, again: Env)
    returns (n: nat, mid: World, m: nat, after: World)
    requires IsGood(w) && Lookup(w.store.jobs, job.request.jobId) == Some(job)
    requires job.state.Compensating? && !HasLiveLease(job, env.atMs) && HasCompensationAttemptsLeft(job)
    requires FinalOf(job) in w.files
    requires IsPrompt(env, job) && IsPrompt(again, job) && env.atMs <= again.atMs
    requires job.version + 3 <= MAX_SAFE_INTEGER
    ensures Drives(Next(w, StartRecovery(job.request.jobId, env.atMs)), |w.actors|, env, n, mid)
    ensures mid == WithRecovery(w, w.store, w.files - AllFilesOf(job), Done(None))
    ensures Drives(Next(mid, StartRecovery(job.request.jobId, again.atMs)), |mid.actors|, again, m, after)
    ensures job.request.jobId in after.store.jobs && after.store.jobs[job.request.jobId].state.Compensated?
    ensures after.files == mid.files
  {
    hide Next, Drives, IsGood, IsLease;
    var k, first := RecoveryOutcome(w, job, env);
    n, mid := k, first;
    SameRow(w.store, job);
    EventIsGood(w, StartRecovery(job.request.jobId, env.atMs));
    DrivesStayGood(Next(w, StartRecovery(job.request.jobId, env.atMs)), |w.actors|, env, n, mid);
    var l, second := RecoveryOutcome(mid, job, again);
    m, after := l, second;
    assert mid.files - AllFilesOf(job) == mid.files;
  }
}
