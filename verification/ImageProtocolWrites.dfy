/**
 Statements to the stores: the ledger, the registrations and the indexes change in a step exactly by the
 statement that the step sends, whoever sends it and whether or not the reply arrives.
 */
module ImageProtocolWrites {
  import opened Outcomes
  import opened ImageJobPolicy
  import opened ImageStores
  import opened ImageStoreAgreement
  import opened ImageProtocol
  import opened ImageProtocolSafety

  /** The store that a statement leaves behind when its call fares as `env` says. */
  function Written(s: Store, write: Option<Write>, env: Env): Store {
    if env.works && write.Some? then Applied(s, write.value) else s
  }

  lemma CallsWrite(s: Store, job: ImageJob, atMs: int, a: Action, env: Env)
    ensures CallTransition(s, job, atMs, a, env).store == Written(s, Some(MoveRow(job, atMs, a)), env)
    ensures CallComplete(s, job, atMs, a, env).store == Written(s, Some(CompleteRow(job, atMs, a)), env)
    ensures CallPublish(s, job, env).store == Written(s, Some(PublishRow(job, env.atMs, env.capacity)), env)
  {
    hide TransitionJob, CompleteCompensation, Publish;
  }

  lemma UploadWrites(w: World, a: Actor, env: Env)
    requires a.Reserving? || a.DiscardingInput?
    ensures UploadStep(w, a, env).store == Written(w.store, DriveWrite(a, env), env)
  {
    hide DecideReservation;
  }

  lemma DriveWrites(w: World, a: Actor, env: Env)
    requires IsUploading(a) && !a.Reserving? && !a.DiscardingInput?
    ensures DriveStep(w, a, env).store == Written(w.store, DriveWrite(a, env), env)
  {
    if a.Driving? || a.Claiming? || a.RecordingOutput? {
      EarlyDriveWrites(w, a, env);
    } else {
      LateDriveWrites(w, a, env);
    }
    hide DriveStep, DriveWrite, Written;
  }

  lemma EarlyDriveWrites(w: World, a: Actor, env: Env)
    requires a.Driving? || a.Claiming? || a.RecordingOutput?
    ensures DriveStep(w, a, env).store == Written(w.store, DriveWrite(a, env), env)
  {
    hide CallTransition, Applied;
    CallsWrite(w.store, a.job, env.atMs, Enqueue(env.atMs), env);
    CallsWrite(w.store, a.job, env.atMs, ClaimProcessing("web-1", env.token, env.atMs + env.leaseMs), env);
    if a.RecordingOutput? {
      CallsWrite(w.store, a.job, env.atMs, RecordOutputReady(TokenOf(a.job), a.width, a.height), env);
    }
  }

  lemma LateDriveWrites(w: World, a: Actor, env: Env)
    requires
      || a.AnsweringReady? || a.AnsweringFinal? || a.Executing? || a.BeginningPublication? || a.Renaming?
      || a.MarkingReady?
    ensures DriveStep(w, a, env).store == Written(w.store, DriveWrite(a, env), env)
  {
    hide CallTransition, CallPublish, Applied, IsAttachableJob, HasReadyRegistration;
    CallsWrite(w.store, a.job, env.atMs, BeginPublication(TokenOf(a.job)), env);
  }

  lemma CatchWrites(w: World, a: Actor, env: Env)
    requires IsCatching(a)
    ensures CatchStep(w, a, env).store == Written(w.store, DriveWrite(a, env), env)
  {
    hide CallTransition, Applied, IsAttachableJob, SafeCode, AfterFailure;
    if a.RecordingFailure? {
      var action := RecordFailure(TokenOf(a.observed), SafeCode(a.failure), false, true, None);
      CallsWrite(w.store, a.observed, env.atMs, action, env);
    }
  }

  lemma CompensateWrites(w: World, a: Actor, env: Env)
    requires IsCompensation(a)
    ensures CompensateStep(w, a, env).store == Written(w.store, CompensateWrite(a, env), env)
  {
    if a.StartingCompensation? || a.ClaimingCompensation? {
      ClaimWrites(w, a, env);
    } else {
      RemovalWrites(w, a, env);
    }
    hide CompensateStep, CompensateWrite, Written;
  }

  lemma ClaimWrites(w: World, a: Actor, env: Env)
    requires a.StartingCompensation? || a.ClaimingCompensation?
    ensures CompensateStep(w, a, env).store == Written(w.store, CompensateWrite(a, env), env)
  {
    hide CallTransition, Applied, SafeCode, Resume, OpeningAction;
    CallsWrite(w.store, a.job, env.atMs, ClaimAction(env), env);
    if a.StartingCompensation? {
      CallsWrite(w.store, a.job, env.atMs, OpeningAction(a.job, a.failure, env.atMs), env);
    }
  }

  lemma RemovalWrites(w: World, a: Actor, env: Env)
    requires a.CheckingSafety? || a.RecordingUnsafe? || a.Unlinking? || a.Completing?
    ensures CompensateStep(w, a, env).store == Written(w.store, CompensateWrite(a, env), env)
  {
    hide CallTransition, CallComplete, Applied, CompensationSafety, Resume, FinalsIn, UnsafeAction;
    CallsWrite(w.store, a.job, env.atMs, MarkCompensated(TokenOf(a.job), true, true), env);
    if a.RecordingUnsafe? {
      CallsWrite(w.store, a.job, env.atMs, UnsafeAction(a.job, a.failure, env), env);
    }
  }

  lemma ActWrites(w: World, a: Actor, env: Env)
    requires a.Acting?
    ensures ActStep(w, a, env).store == Written(w.store, RecoverWrite(a, env), env)
  {
    hide CallTransition, CallComplete, CallPublish, Applied, PlanRestart;
    var plan := PlanRestart(a.job, a.evidence, a.nowMs);
    if plan == Ok(DoEnqueue) {
      CallsWrite(w.store, a.job, a.nowMs, Enqueue(a.nowMs), env);
    } else if plan == Ok(DoRecoverReady) {
      CallsWrite(w.store, a.job, a.nowMs, RecoverReady(true, true), env);
    } else if plan == Ok(DoManualReview) {
      CallsWrite(w.store, a.job, a.nowMs, MarkManualReview("RECOVERY_EVIDENCE_UNKNOWN"), env);
    }
  }

  lemma RecoverWrites(w: World, a: Actor, env: Env)
    requires IsReconciling(a)
    ensures RecoverStep(w, a, env).store == Written(w.store, RecoverWrite(a, env), env)
  {
    if a.Requeueing? || a.CompletingRecovery? || a.MarkingForReview? {
      SendingRecoverWrites(w, a, env);
    } else {
      SilentRecoverWrites(w, a, env);
    }
    hide RecoverStep, RecoverWrite, Written;
  }

  lemma SendingRecoverWrites(w: World, a: Actor, env: Env)
    requires a.Requeueing? || a.CompletingRecovery? || a.MarkingForReview?
    ensures RecoverStep(w, a, env).store == Written(w.store, RecoverWrite(a, env), env)
  {
    hide CallTransition, CallComplete, Applied, SafeCode, AfterRecoveryFailure;
    if a.Requeueing? {
      var action := RecoverRetry(true, true, true, a.nowMs, "WORKER_RESTARTED");
      CallsWrite(w.store, a.job, a.nowMs, action, env);
    } else if a.CompletingRecovery? {
      CallsWrite(w.store, a.job, a.nowMs, RecoverCompensated(true, true), env);
    } else {
      CallsWrite(w.store, a.job, env.atMs, MarkManualReview(SafeCode(a.failure)), env);
    }
  }

  lemma SilentRecoverWrites(w: World, a: Actor, env: Env)
    requires a.CheckingRecovery? || a.UnlinkingRecovery? || a.Sweeping? || a.ReadingForReview?
    ensures RecoverStep(w, a, env).store == Written(w.store, RecoverWrite(a, env), env)
  {
    hide Applied, CompensationSafety, AfterRecoveryFailure, FinalsIn, ReadRow;
  }

  predicate IsReconciling(a: Actor) {
    || a.Requeueing? || a.CheckingRecovery? || a.UnlinkingRecovery? || a.CompletingRecovery?
    || a.Sweeping? || a.ReadingForReview? || a.MarkingForReview?
  }

  /** Each of them sends its own statements only. */
  lemma WritesAreApart(a: Actor, env: Env)
    ensures !IsUploading(a) && !IsCatching(a) ==> DriveWrite(a, env).None?
    ensures !IsCompensation(a) ==> CompensateWrite(a, env).None?
    ensures !a.Acting? && !IsReconciling(a) ==> RecoverWrite(a, env).None?
  {
    hide OpeningAction, UnsafeAction, ActWrite, PlanRestart, SafeCode;
  }

  /** A step changes the stores exactly by its statement, if it sends one and the statement takes effect. */
  lemma StepWrites(w: World, a: Actor, env: Env)
    ensures ActorStep(w, a, env).store == Written(w.store, WriteOf(a, env), env)
  {
    hide UploadStep, DriveStep, CatchStep, CompensateStep, ObserveStep, ActStep, RecoverStep;
    hide Applied, DriveWrite, CompensateWrite, RecoverWrite;
    WritesAreApart(a, env);
    if a.Reserving? || a.DiscardingInput? {
      UploadWrites(w, a, env);
    } else if IsUploading(a) {
      DriveWrites(w, a, env);
    } else if IsCatching(a) {
      CatchWrites(w, a, env);
    } else if IsCompensation(a) {
      CompensateWrites(w, a, env);
    } else if a.Acting? {
      ActWrites(w, a, env);
    } else if IsReconciling(a) {
      RecoverWrites(w, a, env);
    } else if IsObserving(a) {
      ObserveWrites(w, a, env);
    }
  }

  predicate IsObserving(a: Actor) {
    a.ObservingFinal? || a.ObservingInput? || a.ObservingTemp? || a.ObservingRegistration?
  }

  lemma ObserveWrites(w: World, a: Actor, env: Env)
    requires IsObserving(a)
    ensures ObserveStep(w, a, env).store == w.store
  {
    hide Observe, MergeObservations, HasReadyRegistration;
  }

  /** A statement that fails changes nothing but where its call goes on. */
  lemma FailedWriteChangesNothing(w: World, a: Actor, env: Env)
    requires WriteOf(a, env).Some? && !env.works
    ensures var o := ActorStep(w, a, env); o.store == w.store && o.files == w.files && o.strays == w.strays
  {
    StepWrites(w, a, env);
    hide PlanRestart, Applied, CallTransition, CallComplete, CallPublish, SafeCode, OpeningAction, Resume;
  }
}
