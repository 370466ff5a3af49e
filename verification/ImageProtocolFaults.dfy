/** Single faults: what a call makes of a step that fails without effect, or whose reply is lost. */
module ImageProtocolFaults {
  import opened Outcomes
  import opened ImageJobPolicy
  import opened ImageJobEffects
  import opened ImageJobRecovery
  import opened ImageStores
  import opened ImageStoreAgreement
  import opened ImageProtocol
  import opened ImageProtocolSafety
  import opened ImageProtocolRuns
  import opened ImageProtocolDrives
  import opened ImageProtocolCompensation
  import opened ImageProtocolRecovery
  import opened ImageProtocolFailures

  // ---------------------------------------------------------------------------------------------
  // Answers and catch blocks
  // ---------------------------------------------------------------------------------------------

  /** Where a call goes when its next look, removal or statement fails without effect. */
  function GivesUpAt(a: Actor, code: string): Option<Actor> {
    match a
    case AnsweringReady(_) => Some(Done(None))
    case AnsweringFinal(_) => Some(Done(None))
    case DiscardingInput(_, _) => Some(Done(None))
    case Finishing(job, mayCatch) => Some(if mayCatch then ReadingAfterFailure(job, true, code) else Done(None))
    case CheckingAfterPublish(job, _, _) => Some(ReadingAfterFailure(job, true, code))
    case CheckingAfterFailure(_, _, _, _) => Some(Done(None))
    case CleaningPrivate(_, _, _) => Some(Done(None))
    case RecordingFailure(_, _) => Some(Done(None))
    case Requeueing(_, _) => Some(Done(None))
    case CheckingRecovery(_, _) => Some(Done(None))
    case Sweeping(_) => Some(Done(None))
    case MarkingForReview(_, _) => Some(Done(None))
    case _ => None
  }

  /** A failed look never answers: the path is given out only after all three looks have worked. */
  lemma FailedCallGivesUp(w: World, i: nat, env: Env)
    requires i < |w.actors| && !env.works && GivesUpAt(w.actors[i], env.code).Some?
    ensures Next(w, Proceed(i, env)) == Moved(w, i, w.store, w.files, GivesUpAt(w.actors[i], env.code).value)
  {
    hide Transition;
  }

  /** A row that cannot be read: the inner catch block goes on to the outer one, every other call ends. */
  lemma UnreadRowIsLeft(w: World, i: nat, env: Env)
    requires i < |w.actors| && !env.readable
    ensures var a := w.actors[i];
            && (a.ReadingAfterPublish? ==>
                  Next(w, Proceed(i, env))
                  == Moved(w, i, w.store, w.files, ReadingAfterFailure(a.job, true, a.failure)))
            && (a.ReadingAfterFailure? || a.ReadingForReview? ==>
                  Next(w, Proceed(i, env)) == Moved(w, i, w.store, w.files, Done(None)))
  {
    hide Transition;
  }

  /**
   A reserved upload keeps its input exactly when its caller was told so and the job is its own; any other
   outcome of the reservation drops the input first, and only an answered one goes on with a job.
   */
  lemma ReservationKeepsOwnInput(w: World, i: nat, proposal: NewImageJob, atMs: int, env: Env)
    requires i < |w.actors| && w.actors[i] == Reserving(proposal, atMs)
    requires IsHonest(w.store, ReserveOp(proposal, atMs))
    ensures var d, a := DecideReservation(w.store, proposal, atMs), Next(w, Proceed(i, env)).actors[i];
            var isTold := env.works && !env.replyLost && d.Ok?;
            && (a.Driving? <==> isTold && d.value.job.request.jobId == proposal.jobId)
            && (!a.Driving? ==> a.DiscardingInput? && a.key == proposal.inputStorageKey)
            && (a.DiscardingInput? && a.continuation.Some? <==> isTold && d.value.job.request.jobId != proposal.jobId)
            && (a.Driving? ==> a.job == d.value.job)
            && (a.DiscardingInput? && a.continuation.Some? ==> a.continuation.value == d.value.job)
            && Next(w, Proceed(i, env)).files == w.files
  {
    hide Transition, IsRequest, IsValid;
  }

  /** What a removal that fails leaves behind: the other removals go on without their caller. */
  lemma FailedRemovalStrays(w: World, i: nat, job: ImageJob, nowMs: int, rest: set<File>, env: Env)
    requires i < |w.actors| && w.actors[i] == UnlinkingRecovery(job, nowMs, rest) && rest != {} && !env.works
    ensures Next(w, Proceed(i, env))
            == Moved(w, i, w.store, w.files, AfterRecoveryFailure(job, env.code)).(
              strays := w.strays + FinalsIn(rest))
  {
    hide AfterRecoveryFailure;
  }

  // ---------------------------------------------------------------------------------------------
  // Lost replies
  // ---------------------------------------------------------------------------------------------

  /** The command that the driver sends for the row it holds, if it stands before one. */
  function DriverCommand(a: Actor, env: Env): Option<(ImageJob, Action)> {
    match a
    case Driving(job) => if job.state.Requested? then Some((job, Enqueue(env.atMs))) else None
    case Claiming(job) => Some((job, ClaimProcessing("web-1", env.token, env.atMs + env.leaseMs)))
    case RecordingOutput(job, width, height) => Some((job, RecordOutputReady(TokenOf(job), width, height)))
    case BeginningPublication(job) => Some((job, BeginPublication(TokenOf(job))))
    case _ => None
  }

  /**
   A driver's command whose reply is lost has moved the row all the same; the driver goes on as if it had
   failed, and never under the assumption that it has not.
   */
  lemma LostReplyIsCaught(w: World, i: nat, job: ImageJob, action: Action, next: ImageJob, env: Env)
    requires i < |w.actors| && DriverCommand(w.actors[i], env) == Some((job, action))
    requires Lookup(w.store.jobs, job.request.jobId) == Some(job)
    requires Transition(job, Command(job.version, env.atMs, action)) == Ok(next)
    requires env.works && env.replyLost
    ensures Next(w, Proceed(i, env))
            == Moved(
                 w, i, WithRow(w.store, job.request.jobId, next), w.files,
                 if w.actors[i].Driving? || w.actors[i].Claiming? then Done(None)
                 else ReadingAfterFailure(job, false, env.code))
  {
    DriveSeen(w, i, env);
    hide Transition, Next;
  }

  /** A rename whose reply is lost has moved the file; a publication whose reply is lost is looked up again. */
  lemma LostPublicationIsCaught(w: World, i: nat, env: Env)
    requires i < |w.actors| && env.works && env.replyLost
    ensures var a := w.actors[i];
            && (a.Renaming? && TempOf(a.job) in w.files ==>
                  Next(w, Proceed(i, env))
                  == Moved(
                       w, i, w.store, w.files - {TempOf(a.job)} + {FinalOf(a.job)},
                       ReadingAfterFailure(a.job, false, env.code)))
            && (a.MarkingReady? ==>
                  var c := Command(a.job.version, env.atMs, MarkReady(TokenOf(a.job), true, true));
                  var r := Publish(w.store, a.job.request.jobId, c, Registration(a.job, env.atMs), env.capacity);
                  r.Ok? ==>
                    Next(w, Proceed(i, env))
                    == Moved(w, i, r.value, w.files, ReadingAfterPublish(a.job, env.code)))
  {
    hide Publish, Transition;
  }

  // ---------------------------------------------------------------------------------------------
  // Looks
  // ---------------------------------------------------------------------------------------------

  /** Private files are present if either is seen, absent if both are seen absent, and unseen otherwise. */
  lemma MergeIsExact(left: Observation, right: Observation)
    ensures MergeObservations(left, right) == Present <==> left == Present || right == Present
    ensures MergeObservations(left, right) == Absent <==> left == Absent && right == Absent
  {
  }

  /** A recovery's looks: each sees what is there, or nothing when it fails. */
  lemma LookIsExact(w: World, i: nat, env: Env)
    requires i < |w.actors|
    ensures var a := w.actors[i];
            && (a.ObservingFinal? ==>
                  Next(w, Proceed(i, env)).actors[i]
                  == ObservingInput(a.job, a.nowMs, SeenAs(FinalOf(a.job) in w.files, env.works)))
            && (a.ObservingInput? ==>
                  Next(w, Proceed(i, env)).actors[i]
                  == ObservingTemp(a.job, a.nowMs, a.final, SeenAs(InputOf(a.job) in w.files, env.works)))
            && (a.ObservingTemp? ==>
                  Next(w, Proceed(i, env)).actors[i]
                  == ObservingRegistration(
                       a.job, a.nowMs, a.final,
                       MergeObservations(a.input, SeenAs(TempOf(a.job) in w.files, env.works))))
            && (a.ObservingRegistration? ==>
                  Next(w, Proceed(i, env)).actors[i]
                  == Acting(
                       a.job, a.nowMs,
                       Evidence(
                         a.final, a.private, SeenAs(HasReadyRegistration(w.store, a.job.request.jobId), env.works))))
  {
    hide HasReadyRegistration, MergeObservations, Transition;
  }

  function SeenAs(isThere: bool, works: bool): Observation {
    if !works then Unobservable else if isThere then Present else Absent
  }

  // ---------------------------------------------------------------------------------------------
  // Reviews on the planner's advice
  // ---------------------------------------------------------------------------------------------

  lemma UnknownEvidenceIsCode()
    ensures IsErrorCode("RECOVERY_EVIDENCE_UNKNOWN")
    ensures SafeCode("RECOVERY_EVIDENCE_UNKNOWN") == "RECOVERY_EVIDENCE_UNKNOWN"
  {
  }

  /** A row whose private files could not be seen is put under review, with its attempts as they were. */
  lemma UnseenRowIsReviewed(w: World, i: nat, job: ImageJob, e: Evidence, env: Env) returns (left: ImageJob)
    requires IsCurrent(w, i, Acting(job, env.atMs, e), job) && IsSound(job) && IsPrompt(env, job)
    requires PlanRestart(job, e, env.atMs) == Ok(DoManualReview) && job.version < MAX_SAFE_INTEGER
    requires job.state != Ready && job.state != Compensated && job.state != ManualReview
    ensures IsPutUnderReview(job, "RECOVERY_EVIDENCE_UNKNOWN", left)
    ensures Next(w, Proceed(i, env)) == Moved(w, i, WithRow(w.store, job.request.jobId, left), w.files, Done(None))
  {
    hide IsSound, Transition, CallTransition, PlanRestart, IsLease, Next, SafeCode, IsPutUnderReview;
    UnknownEvidenceIsCode();
    left := PlannedReviewAllowed(job, e, env.atMs);
    Commanded(w.store, job, env.atMs, MarkManualReview("RECOVERY_EVIDENCE_UNKNOWN"), env, left);
    RecoverySeen(w, i, env);
  }

  lemma PlannedReviewAllowed(job: ImageJob, e: Evidence, nowMs: int) returns (left: ImageJob)
    requires IsSound(job) && PlanRestart(job, e, nowMs) == Ok(DoManualReview)
    requires job.state != Ready && job.state != Compensated && job.state != ManualReview
    requires job.updatedAtMs <= nowMs <= MAX_SAFE_INTEGER && job.version < MAX_SAFE_INTEGER
    ensures Transition(job, Command(job.version, nowMs, MarkManualReview("RECOVERY_EVIDENCE_UNKNOWN"))) == Ok(left)
    ensures IsPutUnderReview(job, "RECOVERY_EVIDENCE_UNKNOWN", left)
  {
    UnknownEvidenceIsCode();
    OtherPlanIsExact(job, e, nowMs);
    hide IsRequest, IsErrorCode, IsLeaseOwner, IsHexText, SafeCode, PlanRestart;
    left := AcceptedNext(job, Command(job.version, nowMs, MarkManualReview("RECOVERY_EVIDENCE_UNKNOWN")));
  }

  /** A finished row, or one under review, is left as it is by a recovery that doubts it. */
  lemma FinishedRowIsLeft(w: World, i: nat, job: ImageJob, e: Evidence, env: Env)
    requires i < |w.actors| && w.actors[i] == Acting(job, env.atMs, e)
    requires PlanRestart(job, e, env.atMs) == Ok(DoManualReview)
    requires job.state == Ready || job.state == Compensated || job.state == ManualReview
    ensures Next(w, Proceed(i, env)) == Moved(w, i, w.store, w.files, Done(None))
  {
    RecoverySeen(w, i, env);
    hide Next, PlanRestart;
  }

  // ---------------------------------------------------------------------------------------------
  // Removals that outlive their call, and what the outside may do
  // ---------------------------------------------------------------------------------------------

  lemma CompensationKeepsStrays(w: World, a: Actor, env: Env)
    requires
      || a.StartingCompensation? || a.ClaimingCompensation? || a.CheckingSafety? || a.RecordingUnsafe?
      || a.Unlinking? || a.Completing?
    ensures w.strays <= CompensateStep(w, a, env).strays
  {
    hide CallTransition, CallComplete, CompensationSafety, Resume, OpeningAction;
  }

  lemma RecoveryKeepsStrays(w: World, a: Actor, env: Env)
    requires
      || a.Requeueing? || a.CheckingRecovery? || a.UnlinkingRecovery? || a.CompletingRecovery?
      || a.Sweeping? || a.ReadingForReview? || a.MarkingForReview?
    ensures w.strays <= RecoverStep(w, a, env).strays
  {
    hide CallTransition, CallComplete, CompensationSafety, AfterRecoveryFailure;
  }

  lemma CatchKeepsStrays(w: World, a: Actor, env: Env)
    requires
      || a.ReadingAfterPublish? || a.CheckingAfterPublish? || a.Finishing? || a.ReadingAfterFailure?
      || a.CheckingAfterFailure? || a.CleaningPrivate? || a.RecordingFailure?
    ensures CatchStep(w, a, env).strays == w.strays
  {
    hide CallTransition, AfterFailure, IsAttachableJob;
  }

  lemma ActKeepsStrays(w: World, a: Actor, env: Env)
    requires a.Acting?
    ensures ActStep(w, a, env).strays == w.strays
  {
    hide CallTransition, PlanRestart;
  }

  lemma OtherStepKeepsStrays(w: World, a: Actor, env: Env)
    requires !a.StartingCompensation? && !a.ClaimingCompensation? && !a.CheckingSafety? && !a.RecordingUnsafe?
    requires !a.Unlinking? && !a.Completing? && !a.Requeueing? && !a.CheckingRecovery? && !a.UnlinkingRecovery?
    requires !a.CompletingRecovery? && !a.Sweeping? && !a.ReadingForReview? && !a.MarkingForReview?
    ensures ActorStep(w, a, env).strays == w.strays
  {
    hide CallTransition, CallPublish, DecideReservation, HasReadyRegistration, IsAttachableJob, Applied, Observe;
    hide CatchStep, ActStep, CompensateStep, RecoverStep;
    if a.ReadingAfterPublish? || a.CheckingAfterPublish? || a.Finishing? || a.ReadingAfterFailure?
       || a.CheckingAfterFailure? || a.CleaningPrivate? || a.RecordingFailure?
    {
      CatchKeepsStrays(w, a, env);
    } else if a.Acting? {
      ActKeepsStrays(w, a, env);
    }
  }

  lemma StepKeepsStrays(w: World, a: Actor, env: Env)
    ensures w.strays <= ActorStep(w, a, env).strays
  {
    hide UploadStep, DriveStep, CatchStep, CompensateStep, ObserveStep, ActStep, RecoverStep, Applied;
    if a.StartingCompensation? || a.ClaimingCompensation? || a.CheckingSafety? || a.RecordingUnsafe?
       || a.Unlinking? || a.Completing?
    {
      CompensationKeepsStrays(w, a, env);
    } else if a.Requeueing? || a.CheckingRecovery? || a.UnlinkingRecovery? || a.CompletingRecovery?
              || a.Sweeping? || a.ReadingForReview? || a.MarkingForReview?
    {
      RecoveryKeepsStrays(w, a, env);
    } else {
      OtherStepKeepsStrays(w, a, env);
    }
  }

  lemma {:induction false} StraysStay(w: World, later: seq<Event>)
    ensures w.strays <= RunAll(w, later).strays
  {
    hide ActorStep;
    if later != [] {
      StraysStay(w, later[..|later| - 1]);
      var before := RunAll(w, later[..|later| - 1]);
      var e := later[|later| - 1];
      if e.Proceed? && e.i < |before.actors| {
        StepKeepsStrays(before, before.actors[e.i], e.env);
      } else if e.TimeOut? && e.i < |before.actors| {
        StepKeepsStrays(before, before.actors[e.i], e.env.(works := false));
      }
    }
  }

  /** A call that dies with removals on their way: each may still strike at any later moment. */
  lemma RemovalMayOutliveItsCall(w: World, i: nat, key: string, later: seq<Event>)
    requires i < |w.actors| && (w.actors[i].Unlinking? || w.actors[i].UnlinkingRecovery?)
    requires FinalFile(key) in w.actors[i].rest
    ensures var left := RunAll(Next(w, Crash(i)), later);
            Next(left, StrayUnlink(key)).files == left.files - {FinalFile(key)}
  {
    hide ActorStep, RunAll;
    assert FinalFile(key).key in FinalsIn(w.actors[i].rest);
    StraysStay(Next(w, Crash(i)), later);
  }

  /** Private files may come and go at any moment, public ones may not; the rest of the world stays. */
  lemma DisturbanceIsPrivate(w: World, file: File, present: bool)
    ensures var next := Next(w, Disturb(file, present));
            && (file.FinalFile? ==> next == w)
            && (!file.FinalFile? ==> (file in next.files <==> present))
            && next.files - {file} == w.files - {file}
            && next.(files := {}) == w.(files := {})
  {
  }
}
