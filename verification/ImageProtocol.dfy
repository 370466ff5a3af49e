/**
 The crash protocol over ledger and files: any number of uploads and recoveries interleave at their
 `await` points, stall there for as long as they like, and may crash there. One `Actor` value is one
 in-flight call of the upload service, stopped before its next effect; one `Event` is one effect.
 Clocks, tokens, I/O errors, lost replies and the image worker are the adversary's.
 */
module ImageProtocol {
  import opened Outcomes
  import opened ImageJobPolicy
  import opened ImageStores
  import opened ImageStoreAgreement

  /** A file of the protocol; temporary outputs belong to a job, the others carry their storage key. */
  datatype File = InputFile(key: string) | TempFile(jobId: string) | FinalFile(key: string)

  /** Who continues when #compensatePublishedJob returns or throws. */
  datatype Caller =
    | PublishingDriver(job: ImageJob, failure: string)
    | FailedDriver
    | RecoveryLoop(snapshot: ImageJob)

  /** A statement to the stores, with everything it was sent with. */
  datatype Write =
    | ReserveRow(proposal: NewImageJob, reservedAtMs: int)
    | MoveRow(job: ImageJob, atMs: int, action: Action)
    | PublishRow(job: ImageJob, atMs: int, capacity: Capacity)
    | CompleteRow(job: ImageJob, atMs: int, action: Action)

  datatype Actor =
    // The call returned an image path, or returned or threw without one.
    | Done(response: Option<string>)
    | Crashed
    // #completeDurable
    | Reserving(proposal: NewImageJob, atMs: int)
    | DiscardingInput(key: string, continuation: Option<ImageJob>)
    // #driveImageJob and #readyResult
    | Driving(job: ImageJob)
    | AnsweringReady(job: ImageJob)
    | AnsweringFinal(job: ImageJob)
    | Claiming(job: ImageJob)
    | Executing(job: ImageJob)
    | RecordingOutput(job: ImageJob, width: int, height: int)
    | BeginningPublication(job: ImageJob)
    | Renaming(job: ImageJob)
    | MarkingReady(job: ImageJob)
    | ReadingAfterPublish(job: ImageJob, failure: string)
    | CheckingAfterPublish(job: ImageJob, observed: ImageJob, failure: string)
    | Finishing(job: ImageJob, mayCatch: bool)
    | ReadingAfterFailure(job: ImageJob, finalPublished: bool, failure: string)
    | CheckingAfterFailure(job: ImageJob, observed: ImageJob, finalPublished: bool, failure: string)
    | CleaningPrivate(observed: ImageJob, failure: string, rest: set<File>)
    | RecordingFailure(observed: ImageJob, failure: string)
    // #compensatePublishedJob
    | StartingCompensation(job: ImageJob, failure: string, caller: Caller)
    | ClaimingCompensation(job: ImageJob, caller: Caller)
    | CheckingSafety(job: ImageJob, caller: Caller)
    | RecordingUnsafe(job: ImageJob, failure: string, caller: Caller)
    | Unlinking(job: ImageJob, caller: Caller, rest: set<File>)
    | Completing(job: ImageJob, caller: Caller)
    // reconcileOnStartup, one listed row
    | ObservingFinal(job: ImageJob, nowMs: int)
    | ObservingInput(job: ImageJob, nowMs: int, final: Observation)
    | ObservingTemp(job: ImageJob, nowMs: int, final: Observation, input: Observation)
    | ObservingRegistration(job: ImageJob, nowMs: int, final: Observation, private: Observation)
    | Acting(job: ImageJob, nowMs: int, evidence: Evidence)
    | Requeueing(job: ImageJob, nowMs: int)
    | CheckingRecovery(job: ImageJob, nowMs: int)
    | UnlinkingRecovery(job: ImageJob, nowMs: int, rest: set<File>)
    | CompletingRecovery(job: ImageJob, nowMs: int)
    | Sweeping(rest: set<File>)
    | ReadingForReview(job: ImageJob, failure: string)
    | MarkingForReview(job: ImageJob, failure: string)
    // A transaction whose call was told of an error, and which may still commit.
    | Committing(write: Write)

  datatype World = World(store: Store, files: set<File>, strays: set<string>, actors: seq<Actor>)

  /** The adversary's choices for one step. */
  datatype Env = Env(
    works: bool,       // the call reaches its effect
    replyLost: bool,   // ... and its reply is lost afterwards
    readable: bool,    // a follow-up read succeeds
    code: string,      // code of an infrastructure error
    atMs: int,
    leaseMs: int,
    token: string,
    width: int,
    height: int,
    file: File,        // which of several concurrent removals completes
    capacity: Capacity)

  /** What one step leaves: the shared state and the actor's next program point. */
  datatype Outcome = Outcome(store: Store, files: set<File>, strays: set<string>, actor: Actor)

  // ---------------------------------------------------------------------------------------------
  // Calls
  // ---------------------------------------------------------------------------------------------

  function CodeOf(e: StoreError): string {
    match e
    case ImageAttached => "IMAGE_JOB_ATTACHED"
    case ImageReferenced => "IMAGE_JOB_REFERENCED"
    case JobNotFound => "IMAGE_JOB_NOT_FOUND"
    case SessionUploadLimit => "SESSION_UPLOAD_LIMIT"
    case GlobalUploadLimit => "GLOBAL_UPLOAD_LIMIT"
    case RegistrationMismatch => "IMAGE_JOB_REGISTRATION_MISMATCH"
    case Policy(error) => PolicyCodeOf(error)
    case _ => ""
  }

  function PolicyCodeOf(e: PolicyError): string {
    match e
    case InvalidJob => "INVALID_JOB"
    case RequestKeyConflict => "REQUEST_KEY_CONFLICT"
    case JobIdConflict => "JOB_ID_CONFLICT"
    case IdentitySplitBrain => "IDENTITY_SPLIT_BRAIN"
    case IllegalTransition => "ILLEGAL_TRANSITION"
    case StaleVersion => "STALE_VERSION"
    case StaleTimestamp => "STALE_TIMESTAMP"
    case StaleLease => "STALE_LEASE"
    case LiveLease => "LIVE_LEASE"
    case NotDue => "NOT_DUE"
    case AttemptsExhausted => "ATTEMPTS_EXHAUSTED"
    case ProofRequired => "PROOF_REQUIRED"
  }

  /** safeErrorCode. */
  function SafeCode(failure: string): string {
    if IsErrorCode(failure) then failure else "IMAGE_JOB_FAILED"
  }

  predicate IsAmbiguousExecution(failure: string) {
    failure == "IMAGE_JOB_TIMEOUT" || failure == "IMAGE_QUEUE_UNAVAILABLE"
  }

  predicate IsReferenceFailure(failure: string) {
    failure == "IMAGE_JOB_REFERENCED" || failure == "IMAGE_JOB_ATTACHED"
  }

  predicate IsStaleFailure(failure: string) {
    failure == "STALE_VERSION" || failure == "IMAGE_JOB_STALE_VERSION"
  }

  datatype Reply = Reply(store: Store, row: Result<ImageJob, string>)

  /** A store call seen by its caller: no effect and an error, an effect, or an effect without a reply. */
  function Call(s: Store, jobId: string, r: Result<Store, StoreError>, env: Env): (reply: Reply)
    requires r.Ok? ==> jobId in r.value.jobs
  {
    if !env.works then Reply(s, Err(env.code))
    else
      match r
      case Err(e) => Reply(s, Err(CodeOf(e)))
      case Ok(next) => Reply(next, if env.replyLost then Err(env.code) else Ok(next.jobs[jobId]))
  }

  function CallTransition(s: Store, job: ImageJob, atMs: int, a: Action, env: Env): Reply {
    var id := job.request.jobId;
    Call(s, id, TransitionJob(s, id, Command(job.version, atMs, a)), env)
  }

  function Registration(job: ImageJob, atMs: int): RegisterUpload {
    RegisterUpload(
      job.request.outputStorageKey, job.request.userId, job.request.sessionScopeHash, atMs,
      job.request.ownershipExpiresAtMs)
  }

  function CallPublish(s: Store, job: ImageJob, env: Env): Reply {
    var id := job.request.jobId;
    var token := if job.lease.Some? then job.lease.value.token else "";
    var c := Command(job.version, env.atMs, MarkReady(token, true, true));
    Call(s, id, Publish(s, id, c, Registration(job, env.atMs), env.capacity), env)
  }

  function CallComplete(s: Store, job: ImageJob, atMs: int, a: Action, env: Env): Reply {
    var id := job.request.jobId;
    Call(s, id, CompleteCompensation(s, id, Command(job.version, atMs, a)), env)
  }

  /** The store after the transaction of `write` has committed, or rolled back on an error of its own. */
  function Applied(s: Store, write: Write): Store {
    match write
    case ReserveRow(proposal, atMs) => OrElse(s, Reserve(s, proposal, atMs))
    case MoveRow(job, atMs, action) =>
      OrElse(s, TransitionJob(s, job.request.jobId, Command(job.version, atMs, action)))
    case PublishRow(job, atMs, capacity) =>
      var c := Command(job.version, atMs, MarkReady(TokenOf(job), true, true));
      OrElse(s, Publish(s, job.request.jobId, c, Registration(job, atMs), capacity))
    case CompleteRow(job, atMs, action) =>
      OrElse(s, CompleteCompensation(s, job.request.jobId, Command(job.version, atMs, action)))
  }

  /** getImageJob(...).catch(() => null). */
  function ReadRow(s: Store, jobId: string, env: Env): Option<ImageJob> {
    if env.readable then Lookup(s.jobs, jobId) else None
  }

  function FinalOf(job: ImageJob): File {
    FinalFile(job.request.outputStorageKey)
  }

  function TempOf(job: ImageJob): File {
    TempFile(job.request.jobId)
  }

  function InputOf(job: ImageJob): File {
    InputFile(job.request.inputStorageKey)
  }

  function AllFilesOf(job: ImageJob): set<File> {
    {FinalOf(job), TempOf(job), InputOf(job)}
  }

  function Observe(present: bool, env: Env): Observation {
    if !env.works then Unobservable else if present then Present else Absent
  }

  /** mergeArtifactObservations. */
  function MergeObservations(left: Observation, right: Observation): Observation {
    if left.Present? || right.Present? then Present
    else if left.Unobservable? || right.Unobservable? then Unobservable
    else Absent
  }

  function TokenOf(job: ImageJob): string {
    if job.lease.Some? then job.lease.value.token else ""
  }

  /** Final files that removals still in flight may take away after their caller has moved on. */
  function FinalsIn(files: set<File>): set<string> {
    set f | f in files && f.FinalFile? :: f.key
  }

  // ---------------------------------------------------------------------------------------------
  // Program points
  // ---------------------------------------------------------------------------------------------

  /** The shared state is untouched and the call goes on at `a`. */
  function GoTo(w: World, a: Actor): Outcome {
    Outcome(w.store, w.files, w.strays, a)
  }

  function WithStore(w: World, s: Store, a: Actor): Outcome {
    Outcome(s, w.files, w.strays, a)
  }

  /** #completeDurable: reserve, drop a superseded input, drive. */
  function UploadStep(w: World, a: Actor, env: Env): Outcome
    requires a.Reserving? || a.DiscardingInput?
  {
    match a
    case Reserving(proposal, atMs) =>
      if !env.works then GoTo(w, DiscardingInput(proposal.inputStorageKey, None))
      else
        (match DecideReservation(w.store, proposal, atMs)
         case Err(_) => GoTo(w, DiscardingInput(proposal.inputStorageKey, None))
         case Ok(decision) =>
           var next := OrElse(w.store, Reserve(w.store, proposal, atMs));
           if env.replyLost then WithStore(w, next, DiscardingInput(proposal.inputStorageKey, None))
           else if decision.Reuse? && decision.job.request.jobId != proposal.jobId
           then WithStore(w, next, DiscardingInput(proposal.inputStorageKey, Some(decision.job)))
           else WithStore(w, next, Driving(decision.job)))
    case DiscardingInput(key, continuation) =>
      if !env.works then GoTo(w, Done(None))
      else
        Outcome(
          w.store, w.files - {InputFile(key)}, w.strays,
          if continuation.Some? then Driving(continuation.value) else Done(None))
  }

  /** #driveImageJob up to publication. */
  function DriveStep(w: World, a: Actor, env: Env): Outcome
    requires
      || a.Driving? || a.AnsweringReady? || a.AnsweringFinal? || a.Claiming? || a.Executing?
      || a.RecordingOutput? || a.BeginningPublication? || a.Renaming? || a.MarkingReady?
  {
    match a
    case Driving(job) =>
      if job.state.Ready? then GoTo(w, AnsweringReady(job))
      else if job.state.Requested? then
        var reply := CallTransition(w.store, job, env.atMs, Enqueue(env.atMs), env);
        WithStore(
          w, reply.store,
          if reply.row.Ok? && reply.row.value.state.Queued? then Claiming(reply.row.value) else Done(None))
      else if job.state.Queued? then GoTo(w, Claiming(job))
      else GoTo(w, Done(None))
    case AnsweringReady(job) =>
      if env.works && IsAttachableJob(job) && HasReadyRegistration(w.store, job.request.jobId)
      then GoTo(w, AnsweringFinal(job))
      else GoTo(w, Done(None))
    case AnsweringFinal(job) =>
      if env.works && FinalOf(job) in w.files then GoTo(w, Done(Some(job.request.outputStorageKey)))
      else GoTo(w, Done(None))
    case Claiming(job) =>
      var reply := CallTransition(
                     w.store, job, env.atMs,
                     ClaimProcessing("web-1", env.token, env.atMs + env.leaseMs), env);
      WithStore(w, reply.store, if reply.row.Ok? then Executing(reply.row.value) else Done(None))
    case Executing(job) =>
      if env.works
      then Outcome(w.store, w.files + {TempOf(job)}, w.strays, RecordingOutput(job, env.width, env.height))
      else GoTo(w, ReadingAfterFailure(job, false, env.code))
    case RecordingOutput(job, width, height) =>
      var reply := CallTransition(
                     w.store, job, env.atMs, RecordOutputReady(TokenOf(job), width, height), env);
      WithStore(
        w, reply.store,
        if reply.row.Ok? then BeginningPublication(reply.row.value)
        else ReadingAfterFailure(job, false, reply.row.error))
    case BeginningPublication(job) =>
      var reply := CallTransition(w.store, job, env.atMs, BeginPublication(TokenOf(job)), env);
      WithStore(
        w, reply.store,
        if reply.row.Ok? then Renaming(reply.row.value) else ReadingAfterFailure(job, false, reply.row.error))
    case Renaming(job) =>
      if !env.works || TempOf(job) !in w.files then GoTo(w, ReadingAfterFailure(job, false, env.code))
      else
        Outcome(
          w.store, w.files - {TempOf(job)} + {FinalOf(job)}, w.strays,
          if env.replyLost then ReadingAfterFailure(job, false, env.code) else MarkingReady(job))
    case MarkingReady(job) =>
      var reply := CallPublish(w.store, job, env);
      WithStore(
        w, reply.store,
        if reply.row.Ok? then Finishing(reply.row.value, true) else ReadingAfterPublish(job, reply.row.error))
  }

  /** The two catch blocks of #driveImageJob and its successful end. */
  function CatchStep(w: World, a: Actor, env: Env): Outcome
    requires
      || a.ReadingAfterPublish? || a.CheckingAfterPublish? || a.Finishing? || a.ReadingAfterFailure?
      || a.CheckingAfterFailure? || a.CleaningPrivate? || a.RecordingFailure?
  {
    match a
    case ReadingAfterPublish(job, failure) =>
      (match ReadRow(w.store, job.request.jobId, env)
       case None => GoTo(w, ReadingAfterFailure(job, true, failure))
       case Some(observed) =>
         if observed.state.Ready? then GoTo(w, CheckingAfterPublish(job, observed, failure))
         else GoTo(w, StartingCompensation(observed, failure, PublishingDriver(job, failure))))
    case CheckingAfterPublish(job, observed, failure) =>
      if !env.works then GoTo(w, ReadingAfterFailure(job, true, env.code))
      else if FinalOf(job) in w.files then GoTo(w, Finishing(observed, true))
      else GoTo(w, StartingCompensation(observed, failure, PublishingDriver(job, failure)))
    case Finishing(job, mayCatch) =>
      if env.works
      then
        Outcome(
          w.store, w.files - {InputOf(job)}, w.strays,
          if IsAttachableJob(job) then Done(Some(job.request.outputStorageKey))
          else if mayCatch then ReadingAfterFailure(job, true, "")
          else Done(None))
      else GoTo(w, if mayCatch then ReadingAfterFailure(job, true, env.code) else Done(None))
    case ReadingAfterFailure(job, finalPublished, failure) =>
      (match ReadRow(w.store, job.request.jobId, env)
       case None => GoTo(w, Done(None))
       case Some(observed) =>
         if observed.state.Ready? then GoTo(w, CheckingAfterFailure(job, observed, finalPublished, failure))
         else GoTo(w, AfterFailure(observed, finalPublished, failure)))
    case CheckingAfterFailure(job, observed, finalPublished, failure) =>
      if !env.works then GoTo(w, Done(None))
      else if FinalOf(job) in w.files then GoTo(w, Finishing(observed, false))
      else GoTo(w, AfterFailure(observed, finalPublished, failure))
    case CleaningPrivate(observed, failure, rest) =>
      if !env.works || env.file !in rest then GoTo(w, Done(None))
      else
        var left := rest - {env.file};
        Outcome(
          w.store, w.files - {env.file}, w.strays,
          if left != {} then CleaningPrivate(observed, failure, left)
          else if observed.lease.Some? then RecordingFailure(observed, failure)
          else Done(None))
    case RecordingFailure(observed, failure) =>
      var action := RecordFailure(TokenOf(observed), SafeCode(failure), false, true, None);
      WithStore(w, CallTransition(w.store, observed, env.atMs, action, env).store, Done(None))
  }

  /** The tail of the outer catch block once the row has been read. */
  function AfterFailure(observed: ImageJob, finalPublished: bool, failure: string): Actor {
    if (finalPublished || observed.state.Publishing?) && !IsReferenceFailure(failure) then
      if observed.state.Compensated? then Done(None)
      else StartingCompensation(observed, failure, FailedDriver)
    else if !IsAmbiguousExecution(failure) && (observed.state.Processing? || observed.state.OutputReady?) then
      CleaningPrivate(observed, failure, {TempOf(observed), InputOf(observed)})
    else Done(None)
  }

  /** How a caller of #compensatePublishedJob goes on after it threw `failure`, or returned. */
  function Resume(caller: Caller, failure: Option<string>): Actor {
    match caller
    case PublishingDriver(job, original) => ReadingAfterFailure(job, true, failure.GetOr(original))
    case FailedDriver => Done(None)
    case RecoveryLoop(snapshot) =>
      if failure.Some? then AfterRecoveryFailure(snapshot, failure.value) else Done(None)
  }

  /** The catch block of the recovery loop. */
  function AfterRecoveryFailure(snapshot: ImageJob, failure: string): Actor {
    if !IsStaleFailure(failure) && IsReferenceFailure(failure) then ReadingForReview(snapshot, failure)
    else Done(None)
  }

  /** The command that brings a row into compensation. */
  function OpeningAction(job: ImageJob, failure: string, atMs: int): Action {
    var live := HasLiveLease(job, atMs)
                && (job.state.Processing? || job.state.OutputReady? || job.state.Publishing?);
    if live then RecordFailure(TokenOf(job), SafeCode(failure), true, false, Some(atMs))
    else RequireCompensation(SafeCode(failure), atMs)
  }

  function ClaimAction(env: Env): Action {
    ClaimCompensation("web-compensation-1", env.token, env.atMs + env.leaseMs)
  }

  function UnsafeAction(job: ImageJob, failure: string, env: Env): Action {
    RecordCompensationFailure(TokenOf(job), SafeCode(failure), env.atMs + env.leaseMs)
  }

  /** #compensatePublishedJob. */
  function CompensateStep(w: World, a: Actor, env: Env): Outcome
    requires
      || a.StartingCompensation? || a.ClaimingCompensation? || a.CheckingSafety? || a.RecordingUnsafe?
      || a.Unlinking? || a.Completing?
  {
    match a
    case StartingCompensation(job, failure, caller) =>
      if job.state.CompensationRequired? || job.state.Compensating? then
        GoTo(w, CompensationGoesOn(job, caller))
      else
        var reply := CallTransition(w.store, job, env.atMs, OpeningAction(job, failure, env.atMs), env);
        WithStore(
          w, reply.store,
          if reply.row.Ok? then CompensationGoesOn(reply.row.value, caller)
          else Resume(caller, Some(reply.row.error)))
    case ClaimingCompensation(job, caller) =>
      var reply := CallTransition(w.store, job, env.atMs, ClaimAction(env), env);
      WithStore(
        w, reply.store,
        if reply.row.Ok? then CheckingSafety(reply.row.value, caller)
        else Resume(caller, Some(reply.row.error)))
    case CheckingSafety(job, caller) =>
      if !env.works then GoTo(w, RecordingUnsafe(job, env.code, caller))
      else
        (match CompensationSafety(w.store, job.request.jobId)
         case Blocked(e) => GoTo(w, RecordingUnsafe(job, CodeOf(e), caller))
         case Pass => GoTo(w, Unlinking(job, caller, AllFilesOf(job))))
    case RecordingUnsafe(job, failure, caller) =>
      var action := UnsafeAction(job, failure, env);
      WithStore(
        w, CallTransition(w.store, job, env.atMs, action, env).store, Resume(caller, Some(failure)))
    case Unlinking(job, caller, rest) =>
      if rest == {} then GoTo(w, Completing(job, caller))
      else if !env.works || env.file !in rest then
        Outcome(w.store, w.files, w.strays + FinalsIn(rest), Resume(caller, Some(env.code)))
      else Outcome(w.store, w.files - {env.file}, w.strays, Unlinking(job, caller, rest - {env.file}))
    case Completing(job, caller) =>
      var reply := CallComplete(
                     w.store, job, env.atMs, MarkCompensated(TokenOf(job), true, true), env);
      WithStore(
        w, reply.store, Resume(caller, if reply.row.Ok? then None else Some(reply.row.error)))
  }

  function CompensationGoesOn(job: ImageJob, caller: Caller): Actor {
    if job.state.CompensationRequired? then ClaimingCompensation(job, caller)
    else if job.state.Compensating? && job.lease.Some? then CheckingSafety(job, caller)
    else Resume(caller, None)
  }

  /** reconcileOnStartup: gather the evidence. */
  function ObserveStep(w: World, a: Actor, env: Env): Outcome
    requires a.ObservingFinal? || a.ObservingInput? || a.ObservingTemp? || a.ObservingRegistration?
  {
    match a
    case ObservingFinal(job, nowMs) =>
      GoTo(w, ObservingInput(job, nowMs, Observe(FinalOf(job) in w.files, env)))
    case ObservingInput(job, nowMs, final) =>
      GoTo(w, ObservingTemp(job, nowMs, final, Observe(InputOf(job) in w.files, env)))
    case ObservingTemp(job, nowMs, final, input) =>
      var temp := Observe(TempOf(job) in w.files, env);
      GoTo(w, ObservingRegistration(job, nowMs, final, MergeObservations(input, temp)))
    case ObservingRegistration(job, nowMs, final, private) =>
      var registered := Observe(HasReadyRegistration(w.store, job.request.jobId), env);
      GoTo(w, Acting(job, nowMs, Evidence(final, private, registered)))
  }

  /** reconcileOnStartup: the first effect of the planned action. */
  function ActStep(w: World, a: Actor, env: Env): Outcome
    requires a.Acting?
  {
    var Acting(job, nowMs, evidence) := a;
    match PlanRestart(job, evidence, nowMs)
    case Err(_) => GoTo(w, Done(None))
    case Ok(plan) =>
      match plan
      case DoEnqueue =>
        var reply := CallTransition(w.store, job, nowMs, Enqueue(nowMs), env);
        WithStore(w, reply.store, if reply.row.Ok? then Driving(reply.row.value) else Done(None))
      case DoClaimProcessing => GoTo(w, Driving(job))
      case DoRecoverReady =>
        WithStore(w, CallTransition(w.store, job, nowMs, RecoverReady(true, true), env).store, Done(None))
      case CleanPrivateThenRecoverRetry =>
        if env.works then Outcome(w.store, w.files - {TempOf(job)}, w.strays, Requeueing(job, nowMs))
        else GoTo(w, Done(None))
      case DoRequireCompensation => GoTo(w, StartingCompensation(job, "", RecoveryLoop(job)))
      case DoClaimCompensation => GoTo(w, StartingCompensation(job, "", RecoveryLoop(job)))
      case DoRecoverCompensated => GoTo(w, CheckingRecovery(job, nowMs))
      case CleanPrivate => GoTo(w, Sweeping({TempOf(job), InputOf(job)}))
      case DoManualReview =>
        if job.state.Ready? || job.state.Compensated? || job.state.ManualReview? then GoTo(w, Done(None))
        else
          var action := MarkManualReview("RECOVERY_EVIDENCE_UNKNOWN");
          WithStore(w, CallTransition(w.store, job, nowMs, action, env).store, Done(None))
      case _ => GoTo(w, Done(None))
  }

  /** reconcileOnStartup: the later effects of the planned action and of its catch block. */
  function RecoverStep(w: World, a: Actor, env: Env): Outcome
    requires
      || a.Requeueing? || a.CheckingRecovery? || a.UnlinkingRecovery? || a.CompletingRecovery?
      || a.Sweeping? || a.ReadingForReview? || a.MarkingForReview?
  {
    match a
    case Requeueing(job, nowMs) =>
      var action := RecoverRetry(true, true, true, nowMs, "WORKER_RESTARTED");
      var reply := CallTransition(w.store, job, nowMs, action, env);
      WithStore(
        w, reply.store,
        if reply.row.Err? then Done(None)
        else if reply.row.value.state.Queued? then Driving(reply.row.value)
        else Sweeping({InputOf(job)}))
    case CheckingRecovery(job, nowMs) =>
      if !env.works then GoTo(w, Done(None))
      else
        (match CompensationSafety(w.store, job.request.jobId)
         case Blocked(e) => GoTo(w, AfterRecoveryFailure(job, CodeOf(e)))
         case Pass => GoTo(w, UnlinkingRecovery(job, nowMs, AllFilesOf(job))))
    case UnlinkingRecovery(job, nowMs, rest) =>
      if rest == {} then GoTo(w, CompletingRecovery(job, nowMs))
      else if !env.works || env.file !in rest then
        Outcome(w.store, w.files, w.strays + FinalsIn(rest), AfterRecoveryFailure(job, env.code))
      else Outcome(w.store, w.files - {env.file}, w.strays, UnlinkingRecovery(job, nowMs, rest - {env.file}))
    case CompletingRecovery(job, nowMs) =>
      var reply := CallComplete(w.store, job, nowMs, RecoverCompensated(true, true), env);
      WithStore(
        w, reply.store,
        if reply.row.Ok? then Done(None) else AfterRecoveryFailure(job, reply.row.error))
    case Sweeping(rest) =>
      if rest == {} || !env.works || env.file !in rest then GoTo(w, Done(None))
      else Outcome(w.store, w.files - {env.file}, w.strays, Sweeping(rest - {env.file}))
    case ReadingForReview(job, failure) =>
      (match ReadRow(w.store, job.request.jobId, env)
       case None => GoTo(w, Done(None))
       case Some(observed) =>
         if observed.state.Ready? || observed.state.Compensated? || observed.state.ManualReview?
            || observed.lease.Some?
         then GoTo(w, Done(None))
         else GoTo(w, MarkingForReview(observed, failure)))
    case MarkingForReview(job, failure) =>
      var action := MarkManualReview(SafeCode(failure));
      WithStore(w, CallTransition(w.store, job, env.atMs, action, env).store, Done(None))
  }

  /** The statement that #driveImageJob or one of its catch blocks sends next. */
  function DriveWrite(a: Actor, env: Env): Option<Write> {
    match a
    case Reserving(proposal, atMs) => Some(ReserveRow(proposal, atMs))
    case Driving(job) =>
      if job.state.Requested? then Some(MoveRow(job, env.atMs, Enqueue(env.atMs))) else None
    case Claiming(job) =>
      Some(MoveRow(job, env.atMs, ClaimProcessing("web-1", env.token, env.atMs + env.leaseMs)))
    case RecordingOutput(job, width, height) =>
      Some(MoveRow(job, env.atMs, RecordOutputReady(TokenOf(job), width, height)))
    case BeginningPublication(job) => Some(MoveRow(job, env.atMs, BeginPublication(TokenOf(job))))
    case MarkingReady(job) => Some(PublishRow(job, env.atMs, env.capacity))
    case RecordingFailure(job, failure) =>
      Some(MoveRow(job, env.atMs, RecordFailure(TokenOf(job), SafeCode(failure), false, true, None)))
    case _ => None
  }

  /** The statement that #compensatePublishedJob sends next. */
  function CompensateWrite(a: Actor, env: Env): Option<Write> {
    match a
    case StartingCompensation(job, failure, _) =>
      if job.state.CompensationRequired? || job.state.Compensating? then None
      else Some(MoveRow(job, env.atMs, OpeningAction(job, failure, env.atMs)))
    case ClaimingCompensation(job, _) => Some(MoveRow(job, env.atMs, ClaimAction(env)))
    case RecordingUnsafe(job, failure, _) => Some(MoveRow(job, env.atMs, UnsafeAction(job, failure, env)))
    case Completing(job, _) => Some(CompleteRow(job, env.atMs, MarkCompensated(TokenOf(job), true, true)))
    case _ => None
  }

  /** The statement that reconcileOnStartup sends next. */
  function RecoverWrite(a: Actor, env: Env): Option<Write> {
    match a
    case Acting(job, nowMs, evidence) => ActWrite(job, nowMs, PlanRestart(job, evidence, nowMs))
    case Requeueing(job, nowMs) =>
      Some(MoveRow(job, nowMs, RecoverRetry(true, true, true, nowMs, "WORKER_RESTARTED")))
    case CompletingRecovery(job, nowMs) => Some(CompleteRow(job, nowMs, RecoverCompensated(true, true)))
    case MarkingForReview(job, failure) => Some(MoveRow(job, env.atMs, MarkManualReview(SafeCode(failure))))
    case _ => None
  }

  function ActWrite(job: ImageJob, nowMs: int, plan: Result<RestartAction, PolicyError>): Option<Write> {
    match plan
    case Ok(DoEnqueue) => Some(MoveRow(job, nowMs, Enqueue(nowMs)))
    case Ok(DoRecoverReady) => Some(MoveRow(job, nowMs, RecoverReady(true, true)))
    case Ok(DoManualReview) =>
      if job.state.Ready? || job.state.Compensated? || job.state.ManualReview? then None
      else Some(MoveRow(job, nowMs, MarkManualReview("RECOVERY_EVIDENCE_UNKNOWN")))
    case _ => None
  }

  /** The statement that a call sends in its next step, if any. */
  function WriteOf(a: Actor, env: Env): Option<Write> {
    if a.Committing? then Some(a.write)
    else if DriveWrite(a, env).Some? then DriveWrite(a, env)
    else if CompensateWrite(a, env).Some? then CompensateWrite(a, env)
    else RecoverWrite(a, env)
  }

  /** The next effect of one call. */
  function ActorStep(w: World, a: Actor, env: Env): Outcome {
    match a
    case Done(_) => GoTo(w, a)
    case Crashed => GoTo(w, a)
    case Reserving(_, _) => UploadStep(w, a, env)
    case DiscardingInput(_, _) => UploadStep(w, a, env)
    case Driving(_) => DriveStep(w, a, env)
    case AnsweringReady(_) => DriveStep(w, a, env)
    case AnsweringFinal(_) => DriveStep(w, a, env)
    case Claiming(_) => DriveStep(w, a, env)
    case Executing(_) => DriveStep(w, a, env)
    case RecordingOutput(_, _, _) => DriveStep(w, a, env)
    case BeginningPublication(_) => DriveStep(w, a, env)
    case Renaming(_) => DriveStep(w, a, env)
    case MarkingReady(_) => DriveStep(w, a, env)
    case ReadingAfterPublish(_, _) => CatchStep(w, a, env)
    case CheckingAfterPublish(_, _, _) => CatchStep(w, a, env)
    case Finishing(_, _) => CatchStep(w, a, env)
    case ReadingAfterFailure(_, _, _) => CatchStep(w, a, env)
    case CheckingAfterFailure(_, _, _, _) => CatchStep(w, a, env)
    case CleaningPrivate(_, _, _) => CatchStep(w, a, env)
    case RecordingFailure(_, _) => CatchStep(w, a, env)
    case StartingCompensation(_, _, _) => CompensateStep(w, a, env)
    case ClaimingCompensation(_, _) => CompensateStep(w, a, env)
    case CheckingSafety(_, _) => CompensateStep(w, a, env)
    case RecordingUnsafe(_, _, _) => CompensateStep(w, a, env)
    case Unlinking(_, _, _) => CompensateStep(w, a, env)
    case Completing(_, _) => CompensateStep(w, a, env)
    case ObservingFinal(_, _) => ObserveStep(w, a, env)
    case ObservingInput(_, _, _) => ObserveStep(w, a, env)
    case ObservingTemp(_, _, _, _) => ObserveStep(w, a, env)
    case ObservingRegistration(_, _, _, _) => ObserveStep(w, a, env)
    case Acting(_, _, _) => ActStep(w, a, env)
    case Committing(write) => WithStore(w, if env.works then Applied(w.store, write) else w.store, Done(None))
    case _ => RecoverStep(w, a, env)
  }

  // ---------------------------------------------------------------------------------------------
  // Events and runs
  // ---------------------------------------------------------------------------------------------

  /**
   `StartReview` stands for a recovery whose own drive has thrown a reference error; it may happen to any
   row at any time here. `TimeOut` tells a call that its statement has failed while the transaction goes on.
   */
  datatype Event =
    | StartUpload(input: NewImageJob, atMs: int)
    | StartRecovery(jobId: string, nowMs: int)
    | StartReview(jobId: string, failure: string)
    | Proceed(i: nat, env: Env)
    | Crash(i: nat)
    | TimeOut(i: nat, env: Env)
    | StrayUnlink(key: string)
    | Disturb(file: File, present: bool)
    | UseImage(op: Operation)

  /** Removals of final files that `a` has in flight. */
  function InFlight(a: Actor): set<string> {
    if a.Unlinking? || a.UnlinkingRecovery? then FinalsIn(a.rest) else {}
  }

  /** An event that is not enabled changes nothing. */
  function Next(w: World, e: Event): World {
    match e
    case StartUpload(input, atMs) =>
      w.(files := w.files + {InputFile(input.inputStorageKey)}, actors := w.actors + [Reserving(input, atMs)])
    case StartRecovery(jobId, nowMs) =>
      if jobId in w.store.jobs && NeedsRecovery(w.store.jobs[jobId], nowMs)
      then w.(actors := w.actors + [ObservingFinal(w.store.jobs[jobId], nowMs)])
      else w
    case StartReview(jobId, failure) =>
      if jobId in w.store.jobs
      then w.(actors := w.actors + [ReadingForReview(w.store.jobs[jobId], failure)])
      else w
    case Proceed(i, env) =>
      if i >= |w.actors| then w
      else
        var o := ActorStep(w, w.actors[i], env);
        World(o.store, o.files, o.strays, w.actors[i := o.actor])
    case Crash(i) =>
      if i >= |w.actors| then w
      else w.(strays := w.strays + InFlight(w.actors[i]), actors := w.actors[i := Crashed])
    case TimeOut(i, env) =>
      if i >= |w.actors| || WriteOf(w.actors[i], env).None? then w
      else
        var o := ActorStep(w, w.actors[i], env.(works := false));
        var late := Committing(WriteOf(w.actors[i], env).value);
        World(o.store, o.files, o.strays, w.actors[i := o.actor] + [late])
    case StrayUnlink(key) => if key in w.strays then w.(files := w.files - {FinalFile(key)}) else w
    case Disturb(file, present) =>
      if file.FinalFile? then w
      else w.(files := if present then w.files + {file} else w.files - {file})
    case UseImage(op) =>
      if op.LinkOp? || op.UnlinkOp? || op.AttachOp? then w.(store := Execute(w.store, op)) else w
  }

  predicate IsReserving(a: Actor) {
    a.Reserving? || (a.Committing? && a.write.ReserveRow?)
  }

  predicate IsHonestStep(s: Store, a: Actor) {
    && (a.Reserving? ==> IsHonest(s, ReserveOp(a.proposal, a.atMs)))
    && (a.Committing? && a.write.ReserveRow? ==> IsHonest(s, ReserveOp(a.write.proposal, a.write.reservedAtMs)))
  }

  /** Random output names do not repeat and have the managed shape. */
  predicate IsLegal(w: World, e: Event) {
    e.Proceed? && e.i < |w.actors| ==> IsHonestStep(w.store, w.actors[e.i])
  }

  const EmptyWorld := World(EmptyStore, {}, {}, [])

  function RunAll(w: World, es: seq<Event>): World {
    if es == [] then w else Next(RunAll(w, es[..|es| - 1]), es[|es| - 1])
  }

  predicate IsLegalRun(w: World, es: seq<Event>) {
    es != [] ==>
      IsLegalRun(w, es[..|es| - 1]) && IsLegal(RunAll(w, es[..|es| - 1]), es[|es| - 1])
  }
}
