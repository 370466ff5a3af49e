/**
 Crash-safe publication. The invariant of the protocol machine is kept by every program point of every
 call, so by every run; the theorems at the end read it off.
 */
module ImageProtocolSafety {
  import opened Outcomes
  import opened ImageJobPolicy
  import opened ImageJobEffects
  import opened ImageStores
  import opened ImageStoreAgreement
  import opened ImageProtocol

  // ---------------------------------------------------------------------------------------------
  // How the shared state may move
  // ---------------------------------------------------------------------------------------------

  /** `job` was the row of its id, now or earlier. */
  predicate IsSnapshot(s: Store, job: ImageJob) {
    job.request.jobId in s.jobs && IsLater(job, s.jobs[job.request.jobId])
  }

  /** The job that owns `key` has left the way to publication for good. */
  predicate IsCondemned(s: Store, key: string) {
    && key in s.jobIdByOutput
    && s.jobIdByOutput[key] in s.jobs
    && InCompensation(s.jobs[s.jobIdByOutput[key]].state)
  }

  predicate IsStoreLater(s: Store, next: Store) {
    && (forall id | id in s.jobs :: id in next.jobs && IsLater(s.jobs[id], next.jobs[id]))
    && (forall p | p in s.jobIdByOutput :: p in next.jobIdByOutput && next.jobIdByOutput[p] == s.jobIdByOutput[p])
  }

  /** No row becomes ready. */
  predicate IsQuiet(s: Store, next: Store) {
    forall id | id in next.jobs && next.jobs[id].state.Ready? :: id in s.jobs && s.jobs[id].state.Ready?
  }

  ghost predicate KeepsFinals(s: Store, files: set<File>, left: set<File>) {
    forall key | FinalFile(key) in files :: FinalFile(key) in left || IsCondemned(s, key)
  }

  /** Every ready row has its final file. */
  predicate HasReadyFiles(s: Store, files: set<File>) {
    forall id | id in s.jobs && s.jobs[id].state.Ready? :: FinalOf(s.jobs[id]) in files
  }

  lemma LaterStaysCondemned(s: Store, next: Store, key: string)
    requires IsStoreLater(s, next) && IsCondemned(s, key)
    ensures IsCondemned(next, key)
  {
    var id := s.jobIdByOutput[key];
    assert IsLater(s.jobs[id], next.jobs[id]);
  }

  lemma LaterIsStillSnapshot(s: Store, next: Store, job: ImageJob)
    requires IsStoreLater(s, next) && IsSnapshot(s, job)
    ensures IsSnapshot(next, job)
  {
    var id := job.request.jobId;
    LaterIsTransitive(job, s.jobs[id], next.jobs[id]);
  }

  /** Quiet moves that drop only condemned finals keep the final of every ready row. */
  lemma QuietKeepsReadyFiles(s: Store, files: set<File>, next: Store, left: set<File>)
    requires HasReadyFiles(s, files) && IsIndexed(next)
    requires IsStoreLater(s, next) && IsQuiet(s, next) && KeepsFinals(next, files, left)
    ensures HasReadyFiles(next, left)
  {
    hide IsSound, IsManagedImagePath;
    forall id | id in next.jobs && next.jobs[id].state.Ready?
      ensures FinalOf(next.jobs[id]) in left
    {
      assert IsLater(s.jobs[id], next.jobs[id]);
      ReadyIsNotCondemned(next, id);
    }
  }

  lemma ReadyIsNotCondemned(s: Store, jobId: string)
    requires IsIndexed(s) && jobId in s.jobs && !InCompensation(s.jobs[jobId].state)
    ensures !IsCondemned(s, s.jobs[jobId].request.outputStorageKey)
  {
    OwnerOf(s, jobId);
    hide IsSound, IsManagedImagePath, IsIndexed;
  }

  /** Who holds a snapshot in compensation condemns its final file. */
  lemma SnapshotCondemns(s: Store, job: ImageJob)
    requires IsIndexed(s) && IsSnapshot(s, job) && InCompensation(job.state)
    ensures IsCondemned(s, job.request.outputStorageKey)
  {
    OwnerOf(s, job.request.jobId);
    hide IsSound, IsManagedImagePath, IsIndexed;
  }

  // ---------------------------------------------------------------------------------------------
  // What a stopped call knows
  // ---------------------------------------------------------------------------------------------

  function HeldBy(caller: Caller): set<ImageJob> {
    match caller
    case PublishingDriver(job, _) => {job}
    case FailedDriver => {}
    case RecoveryLoop(snapshot) => {snapshot}
  }

  /** The ledger rows that a stopped call remembers. */
  function Held(a: Actor): set<ImageJob> {
    match a
    case Done(_) => {}
    case Crashed => {}
    case Reserving(_, _) => {}
    case DiscardingInput(_, job) => if job.Some? then {job.value} else {}
    case Driving(job) => {job}
    case AnsweringReady(job) => {job}
    case AnsweringFinal(job) => {job}
    case Claiming(job) => {job}
    case Executing(job) => {job}
    case RecordingOutput(job, _, _) => {job}
    case BeginningPublication(job) => {job}
    case Renaming(job) => {job}
    case MarkingReady(job) => {job}
    case ReadingAfterPublish(job, _) => {job}
    case CheckingAfterPublish(job, observed, _) => {job, observed}
    case Finishing(job, _) => {job}
    case ReadingAfterFailure(job, _, _) => {job}
    case CheckingAfterFailure(job, observed, _, _) => {job, observed}
    case CleaningPrivate(observed, _, _) => {observed}
    case RecordingFailure(observed, _) => {observed}
    case StartingCompensation(job, _, caller) => {job} + HeldBy(caller)
    case ClaimingCompensation(job, caller) => {job} + HeldBy(caller)
    case CheckingSafety(job, caller) => {job} + HeldBy(caller)
    case RecordingUnsafe(job, _, caller) => {job} + HeldBy(caller)
    case Unlinking(job, caller, _) => {job} + HeldBy(caller)
    case Completing(job, caller) => {job} + HeldBy(caller)
    case ObservingFinal(job, _) => {job}
    case ObservingInput(job, _, _) => {job}
    case ObservingTemp(job, _, _, _) => {job}
    case ObservingRegistration(job, _, _, _) => {job}
    case Acting(job, _, _) => {job}
    case Requeueing(job, _) => {job}
    case CheckingRecovery(job, _) => {job}
    case UnlinkingRecovery(job, _, _) => {job}
    case CompletingRecovery(job, _) => {job}
    case Sweeping(_) => {}
    case ReadingForReview(job, _) => {job}
    case MarkingForReview(job, _) => {job}
    case Committing(write) => if write.ReserveRow? then {} else {write.job}
  }

  predicate HasNoFinal(rest: set<File>) {
    forall f | f in rest :: !f.FinalFile?
  }

  /** What the service sends, and over which phase. */
  predicate IsFitting(write: Write) {
    match write
    case ReserveRow(_, _) => true
    case MoveRow(_, _, action) => !action.MarkReady?
    case PublishRow(job, _, _) => job.state.Publishing?
    case CompleteRow(_, _, action) => action.MarkCompensated? || action.RecoverCompensated?
  }

  /** The phase that the remembered row was in. */
  predicate KnowsPhase(a: Actor) {
    match a
    case AnsweringReady(job) => job.state.Ready?
    case AnsweringFinal(job) => job.state.Ready?
    case Renaming(job) => job.state.Publishing?
    case MarkingReady(job) => job.state.Publishing?
    case CheckingAfterPublish(job, observed, _) => observed.state.Ready? && observed.request == job.request
    case Finishing(job, _) => job.state.Ready?
    case CheckingAfterFailure(job, observed, _, _) => observed.state.Ready? && observed.request == job.request
    case CleaningPrivate(_, _, rest) => HasNoFinal(rest)
    case CheckingSafety(job, _) => job.state.Compensating?
    case RecordingUnsafe(job, _, _) => job.state.Compensating?
    case Unlinking(job, _, rest) => job.state.Compensating? && rest <= AllFilesOf(job)
    case Completing(job, _) => job.state.Compensating?
    case CheckingRecovery(job, _) => job.state.Compensating?
    case UnlinkingRecovery(job, _, rest) => job.state.Compensating? && rest <= AllFilesOf(job)
    case CompletingRecovery(job, _) => job.state.Compensating?
    case Sweeping(rest) => HasNoFinal(rest)
    case Committing(write) => IsFitting(write)
    case _ => true
  }

  predicate IsOwnedByReady(s: Store, path: string) {
    && path in s.jobIdByOutput
    && s.jobIdByOutput[path] in s.jobs
    && s.jobs[s.jobIdByOutput[path]].state.Ready?
    && s.jobs[s.jobIdByOutput[path]].request.outputStorageKey == path
  }

  /** Its public file is there as long as the row is still this one. */
  predicate HasSeenFinal(s: Store, files: set<File>, job: ImageJob) {
    var id := job.request.jobId;
    id in s.jobs && s.jobs[id] == job ==> FinalOf(job) in files
  }

  predicate IsReadyNow(s: Store, job: ImageJob) {
    job.request.jobId in s.jobs && s.jobs[job.request.jobId].state.Ready?
  }

  /** What it has seen of the files and the registrations. */
  predicate HasSeen(s: Store, files: set<File>, a: Actor) {
    && (a.Done? && a.response.Some? ==> IsOwnedByReady(s, a.response.value))
    && (a.MarkingReady? ==> HasSeenFinal(s, files, a.job))
    && (a.Acting? && a.evidence.readyRegistration.Present? ==> IsReadyNow(s, a.job))
    && (a.Committing? && a.write.PublishRow? ==> HasSeenFinal(s, files, a.write.job))
    && (a.Committing? && a.write.MoveRow? && a.write.action.RecoverReady? ==> IsReadyNow(s, a.write.job))
  }

  predicate IsSafe(s: Store, files: set<File>, a: Actor) {
    (forall job | job in Held(a) :: IsSnapshot(s, job)) && KnowsPhase(a) && HasSeen(s, files, a)
  }

  /** Another call's step does not disturb what this one knows. */
  lemma OthersStaySafe(s: Store, files: set<File>, next: Store, left: set<File>, a: Actor)
    requires IsSafe(s, files, a) && IsIndexed(next)
    requires IsStoreLater(s, next) && KeepsFinals(next, files, left)
    ensures IsSafe(next, left, a)
  {
    hide Held, KnowsPhase, IsSound, IsManagedImagePath, IsIndexed;
    forall job | job in Held(a)
      ensures IsSnapshot(next, job)
    {
      LaterIsStillSnapshot(s, next, job);
    }
    SightStays(s, files, next, left, a);
  }

  lemma SightStays(s: Store, files: set<File>, next: Store, left: set<File>, a: Actor)
    requires IsSafe(s, files, a) && IsIndexed(next)
    requires IsStoreLater(s, next) && KeepsFinals(next, files, left)
    ensures HasSeen(next, left, a)
  {
    hide IsSound, IsManagedImagePath, IsIndexed, IsLater, KeepsFinals;
    if a.Done? && a.response.Some? {
      ReadyStaysReady(s, next, s.jobIdByOutput[a.response.value]);
    } else if a.MarkingReady? {
      assert a.job in Held(a) && a.job.state.Publishing?;
      CurrentStaysSeen(s, files, next, left, a.job);
    } else if a.Acting? && a.evidence.readyRegistration.Present? {
      ReadyStaysReady(s, next, a.job.request.jobId);
    } else if a.Committing? && a.write.PublishRow? {
      assert a.write.job in Held(a) && a.write.job.state.Publishing?;
      CurrentStaysSeen(s, files, next, left, a.write.job);
    } else if a.Committing? && a.write.MoveRow? && a.write.action.RecoverReady? {
      ReadyStaysReady(s, next, a.write.job.request.jobId);
    }
  }

  lemma ReadyStaysReady(s: Store, next: Store, jobId: string)
    requires IsStoreLater(s, next) && jobId in s.jobs && s.jobs[jobId].state.Ready?
    ensures jobId in next.jobs && next.jobs[jobId] == s.jobs[jobId]
  {
    assert IsLater(s.jobs[jobId], next.jobs[jobId]);
  }

  lemma CurrentStaysSeen(s: Store, files: set<File>, next: Store, left: set<File>, job: ImageJob)
    requires IsSnapshot(s, job) && job.state.Publishing? && HasSeenFinal(s, files, job)
    requires IsStoreLater(s, next) && IsIndexed(next) && KeepsFinals(next, files, left)
    ensures HasSeenFinal(next, left, job)
  {
    hide IsSound, IsManagedImagePath, IsIndexed;
    var id := job.request.jobId;
    if next.jobs[id] == job {
      assert IsLater(s.jobs[id], next.jobs[id]);
      ReadyIsNotCondemned(next, id);
    }
  }

  // ---------------------------------------------------------------------------------------------
  // The invariant and one step of it
  // ---------------------------------------------------------------------------------------------

  ghost predicate IsGood(w: World) {
    && Agrees(w.store)
    && HasReadyFiles(w.store, w.files)
    && (forall key | key in w.strays :: IsCondemned(w.store, key))
    && (forall i | 0 <= i < |w.actors| :: IsSafe(w.store, w.files, w.actors[i]))
  }

  /** The shared part of the invariant, and one safe call. */
  ghost predicate IsGoodFor(w: World, a: Actor) {
    Agrees(w.store) && HasReadyFiles(w.store, w.files) && IsSafe(w.store, w.files, a)
  }

  /** A step keeps the stores in agreement, loses only condemned finals and leaves its call safe. */
  ghost predicate IsGoodStep(w: World, o: Outcome) {
    && Agrees(o.store)
    && IsStoreLater(w.store, o.store)
    && KeepsFinals(o.store, w.files, o.files)
    && HasReadyFiles(o.store, o.files)
    && (forall key | key in o.strays :: key in w.strays || IsCondemned(o.store, key))
    && IsSafe(o.store, o.files, o.actor)
  }

  // ---------------------------------------------------------------------------------------------
  // Calls
  // ---------------------------------------------------------------------------------------------

  /** What a caller learns from a call on `job` that publishes nothing. */
  predicate IsQuietReply(s: Store, job: ImageJob, a: Action, reply: Reply) {
    && Agrees(reply.store)
    && IsStoreLater(s, reply.store)
    && IsQuiet(s, reply.store)
    && (reply.row.Ok? ==>
          && IsSnapshot(reply.store, reply.row.value)
          && reply.row.value.request == job.request
          && IsRowStep(job, a, reply.row.value))
  }

  lemma UnchangedIsLater(s: Store)
    ensures IsStoreLater(s, s) && IsQuiet(s, s)
  {
  }

  lemma RowChangeIsLater(s: Store, jobId: string, next: ImageJob)
    requires jobId in s.jobs && IsLater(s.jobs[jobId], next)
    ensures IsStoreLater(s, WithRow(s, jobId, next))
  {
  }

  lemma SnapshotIsCurrent(s: Store, job: ImageJob, c: Command)
    requires IsSnapshot(s, job) && c.expectedVersion == job.version
    requires Transition(s.jobs[job.request.jobId], c).Ok?
    ensures s.jobs[job.request.jobId] == job
  {
    hide IsValid, Apply;
  }

  lemma TransitionReplies(s: Store, job: ImageJob, atMs: int, a: Action, env: Env)
    requires Agrees(s) && IsSnapshot(s, job) && !a.MarkReady?
    requires a.RecoverReady? ==> s.jobs[job.request.jobId].state.Ready?
    ensures IsQuietReply(s, job, a, CallTransition(s, job, atMs, a, env))
  {
    hide IsSound, Transition, IsManagedImagePath, IsIndexed, IsRegistered, IsLinked, IsAttachableJob;
    hide HasReadyRegistration;
    var id := job.request.jobId;
    var c := Command(job.version, atMs, a);
    UnchangedIsLater(s);
    if Transition(s.jobs[id], c).Ok? {
      SnapshotIsCurrent(s, job, c);
      RowsAreSound(s, id);
      AcceptedIsRowStep(job, c);
      var next := Transition(job, c).value;
      assert !job.state.Ready?;
      QuietStep(s, id, next);
      RowChangeIsLater(s, id, next);
      RowIsSnapshot(WithRow(s, id, next), id);
    }
  }

  lemma RowIsSnapshot(s: Store, jobId: string)
    requires IsIndexed(s) && jobId in s.jobs
    ensures IsSnapshot(s, s.jobs[jobId])
  {
    RowsAreSound(s, jobId);
    hide IsSound, IsManagedImagePath, IsIndexed;
  }

  lemma CompletionReplies(s: Store, job: ImageJob, atMs: int, a: Action, env: Env)
    requires Agrees(s) && IsSnapshot(s, job) && (a.MarkCompensated? || a.RecoverCompensated?)
    ensures IsQuietReply(s, job, a, CallComplete(s, job, atMs, a, env))
  {
    hide IsSound, Transition, IsManagedImagePath, IsIndexed, IsRegistered, IsLinked, IsReferenced;
    var id := job.request.jobId;
    var c := Command(job.version, atMs, a);
    UnchangedIsLater(s);
    if Transition(s.jobs[id], c).Ok? {
      SnapshotIsCurrent(s, job, c);
      RowsAreSound(s, id);
      AcceptedIsRowStep(job, c);
      UnpublishedIsUnseen(s, id);
      var next := Transition(job, c).value;
      QuietStep(s, id, next);
      RowChangeIsLater(s, id, next);
      RowIsSnapshot(WithRow(s, id, next), id);
    }
  }

  predicate IsPublishedReply(s: Store, files: set<File>, job: ImageJob, reply: Reply) {
    && Agrees(reply.store)
    && IsStoreLater(s, reply.store)
    && HasReadyFiles(reply.store, files)
    && (reply.row.Ok? ==>
          && IsSnapshot(reply.store, reply.row.value)
          && reply.row.value.request == job.request
          && reply.row.value.state.Ready?)
  }

  lemma PublicationReplies(s: Store, files: set<File>, job: ImageJob, env: Env)
    requires Agrees(s) && HasReadyFiles(s, files) && IsSafe(s, files, MarkingReady(job))
    ensures IsPublishedReply(s, files, job, CallPublish(s, job, env))
  {
    hide IsSound, Transition, IsManagedImagePath, IsIndexed, IsRegistered, IsLinked, HasReadyRegistration;
    hide ReadyPaths, ReadyPathsInScope;
    assert job in Held(MarkingReady(job));
    var id := job.request.jobId;
    var c := Command(job.version, env.atMs, MarkReady(TokenOf(job), true, true));
    var upload := Registration(job, env.atMs);
    UnchangedIsLater(s);
    RowIsSnapshot(s, id);
    var r := Publish(s, id, c, upload, env.capacity);
    if r.Ok? && !s.jobs[id].state.Ready? {
      SnapshotIsCurrent(s, job, c);
      RowsAreSound(s, id);
      AcceptedIsRowStep(job, c);
      var next := Transition(job, c).value;
      PublishingStep(s, id, next, Registered(upload));
      RowChangeIsLater(s, id, next);
      RowIsSnapshot(WithPublication(s, id, next, Registered(upload)), id);
    }
  }

  lemma ReservationReplies(s: Store, proposal: NewImageJob, atMs: int)
    requires Agrees(s) && IsHonest(s, ReserveOp(proposal, atMs))
    ensures var next := Execute(s, ReserveOp(proposal, atMs));
            Agrees(next) && IsStoreLater(s, next) && IsQuiet(s, next)
    ensures var decision := DecideReservation(s, proposal, atMs);
            decision.Ok? ==> IsSnapshot(Execute(s, ReserveOp(proposal, atMs)), decision.value.job)
  {
    hide IsSound, IsManagedImagePath, IsIndexed, IsRegistered, IsLinked, CreateImageJob, IsSameRequest;
    ReserveKeepsAgreement(s, proposal, atMs);
    UnchangedIsLater(s);
    var decision := DecideReservation(s, proposal, atMs);
    if decision.Ok? && decision.value.Create? {
      ReservationIsFresh(s, proposal, atMs);
      RowIsSnapshot(Execute(s, ReserveOp(proposal, atMs)), proposal.jobId);
    } else if decision.Ok? {
      ReusedIsRow(s, proposal, atMs);
    }
  }

  lemma ReusedIsRow(s: Store, proposal: NewImageJob, atMs: int)
    requires IsIndexed(s)
    requires DecideReservation(s, proposal, atMs).Ok? && DecideReservation(s, proposal, atMs).value.Reuse?
    ensures IsSnapshot(s, DecideReservation(s, proposal, atMs).value.job)
  {
    hide IsSound, IsManagedImagePath, CreateImageJob, IsSameRequest, IsLater;
    var job := DecideReservation(s, proposal, atMs).value.job;
    var id := if proposal.requestKey in s.jobIdByRequest then s.jobIdByRequest[proposal.requestKey] else proposal.jobId;
    assert id in s.jobs && job == s.jobs[id];
    RowIsSnapshot(s, id);
  }

  // ---------------------------------------------------------------------------------------------
  // Every program point keeps the invariant
  // ---------------------------------------------------------------------------------------------

  /** A step that publishes nothing. */
  lemma QuietOutcome(w: World, o: Outcome)
    requires HasReadyFiles(w.store, w.files) && Agrees(o.store)
    requires IsStoreLater(w.store, o.store) && IsQuiet(w.store, o.store)
    requires KeepsFinals(o.store, w.files, o.files)
    requires forall key | key in o.strays :: key in w.strays || IsCondemned(o.store, key)
    requires IsSafe(o.store, o.files, o.actor)
    ensures IsGoodStep(w, o)
  {
    hide IsSafe, IsStoreLater, IsQuiet, KeepsFinals, HasReadyFiles, IsIndexed, IsRegistered, IsLinked;
    hide IsCondemned;
    QuietKeepsReadyFiles(w.store, w.files, o.store, o.files);
  }

  lemma HeldStayHeld(s: Store, files: set<File>, next: Store, a: Actor)
    requires IsSafe(s, files, a) && IsStoreLater(s, next)
    ensures forall job | job in Held(a) :: IsSnapshot(next, job)
  {
    hide Held, KnowsPhase, HasSeen, IsStoreLater;
    forall job | job in Held(a)
      ensures IsSnapshot(next, job)
    {
      LaterIsStillSnapshot(s, next, job);
    }
  }

  lemma UploadStepIsGood(w: World, a: Actor, env: Env)
    requires IsGoodFor(w, a) && (a.Reserving? || a.DiscardingInput?)
    requires a.Reserving? ==> IsHonest(w.store, ReserveOp(a.proposal, a.atMs))
    ensures IsGoodStep(w, UploadStep(w, a, env))
  {
    hide IsIndexed, IsRegistered, IsLinked, IsStoreLater, IsQuiet, HasReadyFiles, IsSnapshot, IsCondemned;
    hide DecideReservation, Reserve, IsHonest;
    UnchangedIsLater(w.store);
    if a.Reserving? {
      ReservationReplies(w.store, a.proposal, a.atMs);
      assert Reserve(w.store, a.proposal, a.atMs).Ok? <==> DecideReservation(w.store, a.proposal, a.atMs).Ok? by {
        ReservationDecides(w.store, a.proposal, a.atMs);
      }
    }
    QuietOutcome(w, UploadStep(w, a, env));
  }

  /** The ledger commands before the rename. */
  lemma ClaimStepIsGood(w: World, a: Actor, env: Env)
    requires IsGoodFor(w, a)
    requires a.Driving? || a.Claiming? || a.RecordingOutput? || a.BeginningPublication?
    ensures IsGoodStep(w, DriveStep(w, a, env))
  {
    hide IsIndexed, IsRegistered, IsLinked, IsStoreLater, IsQuiet, HasReadyFiles, IsSnapshot, IsCondemned;
    hide CallTransition, IsGoodStep;
    if a.Driving? {
      EnqueueStepIsGood(w, a, env);
    } else {
      assert a.job in Held(a);
      UnchangedIsLater(w.store);
      TransitionReplies(w.store, a.job, env.atMs, DriveAction(a, env), env);
      HeldStayHeld(w.store, w.files, DriveStep(w, a, env).store, a);
      QuietOutcome(w, DriveStep(w, a, env));
    }
  }

  lemma EnqueueStepIsGood(w: World, a: Actor, env: Env)
    requires IsGoodFor(w, a) && a.Driving?
    ensures IsGoodStep(w, DriveStep(w, a, env))
  {
    hide IsIndexed, IsRegistered, IsLinked, IsStoreLater, IsQuiet, HasReadyFiles, IsSnapshot, IsCondemned;
    hide CallTransition, IsGoodStep;
    assert a.job in Held(a);
    UnchangedIsLater(w.store);
    TransitionReplies(w.store, a.job, env.atMs, Enqueue(env.atMs), env);
    HeldStayHeld(w.store, w.files, DriveStep(w, a, env).store, a);
    QuietOutcome(w, DriveStep(w, a, env));
  }

  /** The command of a driver that has its job queued. */
  function DriveAction(a: Actor, env: Env): Action
    requires a.Claiming? || a.RecordingOutput? || a.BeginningPublication?
  {
    match a
    case Claiming(_) => ClaimProcessing("web-1", env.token, env.atMs + env.leaseMs)
    case RecordingOutput(job, width, height) => RecordOutputReady(TokenOf(job), width, height)
    case BeginningPublication(job) => BeginPublication(TokenOf(job))
  }

  /** The worker's output and the rename of it to its public name. */
  lemma RenameStepIsGood(w: World, a: Actor, env: Env)
    requires IsGoodFor(w, a) && (a.Executing? || a.Renaming?)
    ensures IsGoodStep(w, DriveStep(w, a, env))
  {
    hide IsIndexed, IsRegistered, IsLinked, IsStoreLater, IsQuiet, HasReadyFiles, IsSnapshot, IsCondemned;
    assert a.job in Held(a);
    UnchangedIsLater(w.store);
    QuietOutcome(w, DriveStep(w, a, env));
  }

  /** The answer for a job found ready: only a row that is ready, registered and has its file. */
  lemma AnswerStepIsGood(w: World, a: Actor, env: Env)
    requires IsGoodFor(w, a) && (a.AnsweringReady? || a.AnsweringFinal?)
    ensures IsGoodStep(w, DriveStep(w, a, env))
  {
    hide IsRegistered, IsLinked, IsStoreLater, IsQuiet, HasReadyFiles, IsCondemned;
    hide IsAttachableJob, HasReadyRegistration, IsSound, IsManagedImagePath;
    assert a.job in Held(a);
    UnchangedIsLater(w.store);
    SnapshotAnswers(w.store, a.job);
    hide IsIndexed, IsSnapshot;
    QuietOutcome(w, DriveStep(w, a, env));
  }

  lemma SnapshotAnswers(s: Store, job: ImageJob)
    requires IsIndexed(s) && IsSnapshot(s, job) && job.state.Ready?
    ensures IsOwnedByReady(s, job.request.outputStorageKey)
  {
    OwnerOf(s, job.request.jobId);
    hide IsIndexed, IsSound, IsManagedImagePath;
  }

  /** The publication: the only step that makes a row ready. */
  lemma PublishStepIsGood(w: World, a: Actor, env: Env)
    requires IsGoodFor(w, a) && a.MarkingReady?
    ensures IsGoodStep(w, DriveStep(w, a, env))
  {
    hide IsIndexed, IsRegistered, IsLinked, IsStoreLater, IsQuiet, HasReadyFiles, IsSnapshot, IsCondemned;
    hide CallPublish;
    PublicationReplies(w.store, w.files, a.job, env);
    HeldStayHeld(w.store, w.files, DriveStep(w, a, env).store, a);
    assert a.job in Held(a);
  }

  lemma AfterFailureIsSafe(
    s: Store, files: set<File>, observed: ImageJob, finalPublished: bool, failure: string)
    requires IsSnapshot(s, observed)
    ensures IsSafe(s, files, AfterFailure(observed, finalPublished, failure))
  {
    hide IsSnapshot, IsReferenceFailure, IsAmbiguousExecution;
  }

  lemma ResumeIsSafe(s: Store, files: set<File>, caller: Caller, failure: Option<string>)
    requires forall job | job in HeldBy(caller) :: IsSnapshot(s, job)
    ensures IsSafe(s, files, Resume(caller, failure))
  {
    hide IsSnapshot, IsStaleFailure, IsReferenceFailure;
  }

  lemma GoesOnSafely(s: Store, files: set<File>, job: ImageJob, caller: Caller)
    requires IsSnapshot(s, job) && forall j | j in HeldBy(caller) :: IsSnapshot(s, j)
    ensures IsSafe(s, files, CompensationGoesOn(job, caller))
  {
    hide IsSnapshot, Resume;
    ResumeIsSafe(s, files, caller, None);
  }

  /** The two catch blocks: reading the row again. */
  lemma ReadingStepIsGood(w: World, a: Actor, env: Env)
    requires IsGoodFor(w, a) && (a.ReadingAfterPublish? || a.ReadingAfterFailure?)
    ensures IsGoodStep(w, CatchStep(w, a, env))
  {
    hide IsIndexed, IsRegistered, IsLinked, IsStoreLater, IsQuiet, HasReadyFiles, IsSnapshot, IsCondemned;
    hide AfterFailure;
    UnchangedIsLater(w.store);
    assert a.job in Held(a);
    SnapshotReads(w.store, a.job);
    var row := w.store.jobs[a.job.request.jobId];
    if a.ReadingAfterFailure? {
      AfterFailureIsSafe(w.store, w.files, row, a.finalPublished, a.failure);
    }
    QuietOutcome(w, CatchStep(w, a, env));
  }

  lemma SnapshotReads(s: Store, job: ImageJob)
    requires IsIndexed(s) && IsSnapshot(s, job)
    ensures job.request.jobId in s.jobs
    ensures var row := s.jobs[job.request.jobId]; IsSnapshot(s, row) && row.request == job.request
  {
    RowIsSnapshot(s, job.request.jobId);
    hide IsIndexed;
  }

  lemma CheckingStepIsGood(w: World, a: Actor, env: Env)
    requires IsGoodFor(w, a) && (a.CheckingAfterPublish? || a.CheckingAfterFailure?)
    ensures IsGoodStep(w, CatchStep(w, a, env))
  {
    hide IsIndexed, IsRegistered, IsLinked, IsStoreLater, IsQuiet, HasReadyFiles, IsSnapshot, IsCondemned;
    hide AfterFailure;
    UnchangedIsLater(w.store);
    assert a.job in Held(a) && a.observed in Held(a);
    if a.CheckingAfterFailure? {
      AfterFailureIsSafe(w.store, w.files, a.observed, a.finalPublished, a.failure);
    }
    QuietOutcome(w, CatchStep(w, a, env));
  }

  lemma CleanupStepIsGood(w: World, a: Actor, env: Env)
    requires IsGoodFor(w, a) && (a.Finishing? || a.CleaningPrivate? || a.RecordingFailure?)
    ensures IsGoodStep(w, CatchStep(w, a, env))
  {
    hide IsIndexed, IsRegistered, IsLinked, IsStoreLater, IsQuiet, HasReadyFiles, IsSnapshot, IsCondemned;
    hide CallTransition, IsAttachableJob;
    UnchangedIsLater(w.store);
    if a.Finishing? {
      assert a.job in Held(a);
      SnapshotAnswers(w.store, a.job);
    } else if a.RecordingFailure? {
      var action := RecordFailure(TokenOf(a.observed), SafeCode(a.failure), false, true, None);
      assert a.observed in Held(a);
      TransitionReplies(w.store, a.observed, env.atMs, action, env);
    } else {
      assert a.observed in Held(a);
    }
    QuietOutcome(w, CatchStep(w, a, env));
  }

  /** #compensatePublishedJob up to the safety check. */
  lemma StartCompensationIsGood(w: World, a: Actor, env: Env)
    requires IsGoodFor(w, a) && a.StartingCompensation?
    ensures IsGoodStep(w, CompensateStep(w, a, env))
  {
    hide IsIndexed, IsRegistered, IsLinked, IsStoreLater, IsQuiet, HasReadyFiles, IsSnapshot, IsCondemned;
    hide CallTransition, Resume, CompensationGoesOn, HeldBy;
    var job, caller := a.job, a.caller;
    assert Held(a) == {job} + HeldBy(caller);
    UnchangedIsLater(w.store);
    var o := CompensateStep(w, a, env);
    if job.state.CompensationRequired? || job.state.Compensating? {
      GoesOnSafely(w.store, w.files, job, caller);
    } else {
      var action := OpeningAction(job, a.failure, env.atMs);
      TransitionReplies(w.store, job, env.atMs, action, env);
      HeldStayHeld(w.store, w.files, o.store, a);
      var row := CallTransition(w.store, job, env.atMs, action, env).row;
      if row.Err? {
        ResumeIsSafe(o.store, o.files, caller, Some(row.error));
      } else {
        GoesOnSafely(o.store, o.files, row.value, caller);
      }
    }
    QuietOutcome(w, o);
  }

  lemma ClaimCompensationIsGood(w: World, a: Actor, env: Env)
    requires IsGoodFor(w, a) && a.ClaimingCompensation?
    ensures IsGoodStep(w, CompensateStep(w, a, env))
  {
    hide IsIndexed, IsRegistered, IsLinked, IsStoreLater, IsQuiet, HasReadyFiles, IsSnapshot, IsCondemned;
    hide CallTransition, Resume, HeldBy;
    assert Held(a) == {a.job} + HeldBy(a.caller);
    var o := CompensateStep(w, a, env);
    var action := ClaimAction(env);
    TransitionReplies(w.store, a.job, env.atMs, action, env);
    HeldStayHeld(w.store, w.files, o.store, a);
    var row := CallTransition(w.store, a.job, env.atMs, action, env).row;
    if row.Err? {
      ResumeIsSafe(o.store, o.files, a.caller, Some(row.error));
    }
    QuietOutcome(w, o);
  }

  lemma CheckSafetyIsGood(w: World, a: Actor, env: Env)
    requires IsGoodFor(w, a) && a.CheckingSafety?
    ensures IsGoodStep(w, CompensateStep(w, a, env))
  {
    hide IsIndexed, IsRegistered, IsLinked, IsStoreLater, IsQuiet, HasReadyFiles, IsSnapshot, IsCondemned;
    hide CompensationSafety, HeldBy;
    assert Held(a) == {a.job} + HeldBy(a.caller);
    UnchangedIsLater(w.store);
    QuietOutcome(w, CompensateStep(w, a, env));
  }

  /** Final files go only while the row is in compensation; a removal left in flight is condemned. */
  lemma RemovingStepIsGood(w: World, a: Actor, env: Env)
    requires IsGoodFor(w, a) && a.Unlinking?
    ensures IsGoodStep(w, CompensateStep(w, a, env))
  {
    hide IsIndexed, IsRegistered, IsLinked, IsStoreLater, IsQuiet, HasReadyFiles, IsSnapshot, IsCondemned;
    hide Resume, HeldBy;
    assert Held(a) == {a.job} + HeldBy(a.caller);
    UnchangedIsLater(w.store);
    SnapshotCondemns(w.store, a.job);
    ResumeIsSafe(w.store, w.files, a.caller, Some(env.code));
    QuietOutcome(w, CompensateStep(w, a, env));
  }

  lemma EndCompensationIsGood(w: World, a: Actor, env: Env)
    requires IsGoodFor(w, a) && (a.RecordingUnsafe? || a.Completing?)
    ensures IsGoodStep(w, CompensateStep(w, a, env))
  {
    hide IsIndexed, IsRegistered, IsLinked, IsStoreLater, IsQuiet, HasReadyFiles, IsSnapshot, IsCondemned;
    hide CallTransition, CallComplete, Resume, HeldBy;
    var job, caller := a.job, a.caller;
    assert Held(a) == {job} + HeldBy(caller);
    var o := CompensateStep(w, a, env);
    if a.RecordingUnsafe? {
      var action := UnsafeAction(job, a.failure, env);
      TransitionReplies(w.store, job, env.atMs, action, env);
      HeldStayHeld(w.store, w.files, o.store, a);
      ResumeIsSafe(o.store, o.files, caller, Some(a.failure));
    } else {
      var action := MarkCompensated(TokenOf(job), true, true);
      CompletionReplies(w.store, job, env.atMs, action, env);
      var row := CallComplete(w.store, job, env.atMs, action, env).row;
      HeldStayHeld(w.store, w.files, o.store, a);
      ResumeIsSafe(o.store, o.files, caller, if row.Ok? then None else Some(row.error));
    }
    QuietOutcome(w, o);
  }

  /** Recovery: gathering the evidence. A registration seen is a row that is ready for good. */
  lemma ObserveStepIsGood(w: World, a: Actor, env: Env)
    requires IsGoodFor(w, a)
    requires a.ObservingFinal? || a.ObservingInput? || a.ObservingTemp? || a.ObservingRegistration?
    ensures IsGoodStep(w, ObserveStep(w, a, env))
  {
    hide IsIndexed, IsRegistered, IsLinked, IsStoreLater, IsQuiet, HasReadyFiles, IsSnapshot, IsCondemned;
    hide IsValid;
    assert a.job in Held(a);
    UnchangedIsLater(w.store);
    QuietOutcome(w, ObserveStep(w, a, env));
  }

  lemma ActStepIsGood(w: World, a: Actor, env: Env)
    requires IsGoodFor(w, a) && a.Acting?
    ensures IsGoodStep(w, ActStep(w, a, env))
  {
    hide IsIndexed, IsRegistered, IsLinked, IsStoreLater, IsQuiet, HasReadyFiles, IsSnapshot, IsCondemned;
    hide CallTransition, IsValid;
    var job := a.job;
    assert job in Held(a);
    UnchangedIsLater(w.store);
    var plan := PlanRestart(job, a.evidence, a.nowMs);
    if plan.Ok? {
      match plan.value {
        case DoEnqueue => TransitionReplies(w.store, job, a.nowMs, Enqueue(a.nowMs), env);
        case DoRecoverReady => TransitionReplies(w.store, job, a.nowMs, RecoverReady(true, true), env);
        case DoManualReview =>
          TransitionReplies(w.store, job, a.nowMs, MarkManualReview("RECOVERY_EVIDENCE_UNKNOWN"), env);
        case _ =>
      }
    }
    QuietOutcome(w, ActStep(w, a, env));
  }

  lemma RequeueStepIsGood(w: World, a: Actor, env: Env)
    requires IsGoodFor(w, a) && a.Requeueing?
    ensures IsGoodStep(w, RecoverStep(w, a, env))
  {
    hide IsIndexed, IsRegistered, IsLinked, IsStoreLater, IsQuiet, HasReadyFiles, IsSnapshot, IsCondemned;
    hide CallTransition, IsGoodStep;
    assert a.job in Held(a);
    var action := RecoverRetry(true, true, true, a.nowMs, "WORKER_RESTARTED");
    TransitionReplies(w.store, a.job, a.nowMs, action, env);
    assert RecoverStep(w, a, env).files == w.files && RecoverStep(w, a, env).strays == w.strays;
    QuietOutcome(w, RecoverStep(w, a, env));
  }

  lemma ReviewStepIsGood(w: World, a: Actor, env: Env)
    requires IsGoodFor(w, a) && a.MarkingForReview?
    ensures IsGoodStep(w, RecoverStep(w, a, env))
  {
    hide IsIndexed, IsRegistered, IsLinked, IsStoreLater, IsQuiet, HasReadyFiles, IsSnapshot, IsCondemned;
    hide CallTransition;
    assert a.job in Held(a);
    TransitionReplies(w.store, a.job, env.atMs, MarkManualReview(SafeCode(a.failure)), env);
    QuietOutcome(w, RecoverStep(w, a, env));
  }

  lemma RecoverEndIsGood(w: World, a: Actor, env: Env)
    requires IsGoodFor(w, a) && a.CompletingRecovery?
    ensures IsGoodStep(w, RecoverStep(w, a, env))
  {
    hide IsIndexed, IsRegistered, IsLinked, IsStoreLater, IsQuiet, HasReadyFiles, IsSnapshot, IsCondemned;
    hide CallComplete, IsStaleFailure, IsReferenceFailure;
    assert a.job in Held(a);
    CompletionReplies(w.store, a.job, a.nowMs, RecoverCompensated(true, true), env);
    HeldStayHeld(w.store, w.files, RecoverStep(w, a, env).store, a);
    QuietOutcome(w, RecoverStep(w, a, env));
  }

  lemma RecoverCheckIsGood(w: World, a: Actor, env: Env)
    requires IsGoodFor(w, a) && a.CheckingRecovery?
    ensures IsGoodStep(w, RecoverStep(w, a, env))
  {
    hide IsIndexed, IsRegistered, IsLinked, IsStoreLater, IsQuiet, HasReadyFiles, IsSnapshot, IsCondemned;
    hide CompensationSafety, IsStaleFailure, IsReferenceFailure;
    UnchangedIsLater(w.store);
    assert a.job in Held(a);
    QuietOutcome(w, RecoverStep(w, a, env));
  }

  lemma RecoverRemovalIsGood(w: World, a: Actor, env: Env)
    requires IsGoodFor(w, a) && a.UnlinkingRecovery?
    ensures IsGoodStep(w, RecoverStep(w, a, env))
  {
    hide IsIndexed, IsRegistered, IsLinked, IsStoreLater, IsQuiet, HasReadyFiles, IsSnapshot, IsCondemned;
    hide IsStaleFailure, IsReferenceFailure;
    UnchangedIsLater(w.store);
    assert a.job in Held(a);
    SnapshotCondemns(w.store, a.job);
    QuietOutcome(w, RecoverStep(w, a, env));
  }

  lemma RecoverReadIsGood(w: World, a: Actor, env: Env)
    requires IsGoodFor(w, a) && (a.Sweeping? || a.ReadingForReview?)
    ensures IsGoodStep(w, RecoverStep(w, a, env))
  {
    hide IsIndexed, IsRegistered, IsLinked, IsStoreLater, IsQuiet, HasReadyFiles, IsSnapshot, IsCondemned;
    UnchangedIsLater(w.store);
    if a.ReadingForReview? {
      assert a.job in Held(a);
      SnapshotReads(w.store, a.job);
    }
    QuietOutcome(w, RecoverStep(w, a, env));
  }

  predicate IsUploading(a: Actor) {
    || a.Reserving? || a.DiscardingInput? || a.Driving? || a.AnsweringReady? || a.AnsweringFinal?
    || a.Claiming? || a.Executing? || a.RecordingOutput? || a.BeginningPublication? || a.Renaming?
    || a.MarkingReady?
  }

  predicate IsCatching(a: Actor) {
    || a.ReadingAfterPublish? || a.CheckingAfterPublish? || a.Finishing? || a.ReadingAfterFailure?
    || a.CheckingAfterFailure? || a.CleaningPrivate? || a.RecordingFailure?
  }

  predicate IsCompensation(a: Actor) {
    || a.StartingCompensation? || a.ClaimingCompensation? || a.CheckingSafety? || a.RecordingUnsafe?
    || a.Unlinking? || a.Completing?
  }

  lemma UploadingIsGood(w: World, a: Actor, env: Env)
    requires IsGoodFor(w, a) && IsUploading(a)
    requires a.Reserving? ==> IsHonest(w.store, ReserveOp(a.proposal, a.atMs))
    ensures IsGoodStep(w, ActorStep(w, a, env))
  {
    hide IsGoodFor, IsGoodStep, IsHonest;
    hide UploadStep, DriveStep, CatchStep, CompensateStep, ObserveStep, ActStep, RecoverStep;
    if a.Reserving? || a.DiscardingInput? {
      UploadStepIsGood(w, a, env);
    } else if a.AnsweringReady? || a.AnsweringFinal? {
      AnswerStepIsGood(w, a, env);
    } else if a.Executing? || a.Renaming? {
      RenameStepIsGood(w, a, env);
    } else if a.MarkingReady? {
      PublishStepIsGood(w, a, env);
    } else {
      ClaimStepIsGood(w, a, env);
    }
  }

  lemma CatchingIsGood(w: World, a: Actor, env: Env)
    requires IsGoodFor(w, a) && IsCatching(a)
    ensures IsGoodStep(w, ActorStep(w, a, env))
  {
    hide IsGoodFor, IsGoodStep, IsHonest;
    hide UploadStep, DriveStep, CatchStep, CompensateStep, ObserveStep, ActStep, RecoverStep;
    if a.ReadingAfterPublish? || a.ReadingAfterFailure? {
      ReadingStepIsGood(w, a, env);
    } else if a.CheckingAfterPublish? || a.CheckingAfterFailure? {
      CheckingStepIsGood(w, a, env);
    } else {
      CleanupStepIsGood(w, a, env);
    }
  }

  lemma CompensationIsGood(w: World, a: Actor, env: Env)
    requires IsGoodFor(w, a) && IsCompensation(a)
    ensures IsGoodStep(w, ActorStep(w, a, env))
  {
    hide IsGoodFor, IsGoodStep, IsHonest;
    hide UploadStep, DriveStep, CatchStep, CompensateStep, ObserveStep, ActStep, RecoverStep;
    if a.StartingCompensation? {
      StartCompensationIsGood(w, a, env);
    } else if a.ClaimingCompensation? {
      ClaimCompensationIsGood(w, a, env);
    } else if a.CheckingSafety? {
      CheckSafetyIsGood(w, a, env);
    } else if a.Unlinking? {
      RemovingStepIsGood(w, a, env);
    } else {
      EndCompensationIsGood(w, a, env);
    }
  }

  lemma RecoveryIsGood(w: World, a: Actor, env: Env)
    requires IsGoodFor(w, a) && !IsUploading(a) && !IsCatching(a) && !IsCompensation(a)
    requires IsHonestStep(w.store, a)
    ensures IsGoodStep(w, ActorStep(w, a, env))
  {
    hide IsGoodFor, IsGoodStep, IsHonest;
    hide UploadStep, DriveStep, CatchStep, CompensateStep, ObserveStep, ActStep, RecoverStep;
    if a.Done? || a.Crashed? {
      IdleStepIsGood(w, a);
    } else if a.Committing? {
      CommitIsGood(w, a, env);
    } else if a.Acting? {
      ActStepIsGood(w, a, env);
    } else if a.Requeueing? {
      RequeueStepIsGood(w, a, env);
    } else if a.CheckingRecovery? {
      RecoverCheckIsGood(w, a, env);
    } else if a.UnlinkingRecovery? {
      RecoverRemovalIsGood(w, a, env);
    } else if a.CompletingRecovery? {
      RecoverEndIsGood(w, a, env);
    } else if a.Sweeping? || a.ReadingForReview? {
      RecoverReadIsGood(w, a, env);
    } else if a.MarkingForReview? {
      ReviewStepIsGood(w, a, env);
    } else {
      ObserveStepIsGood(w, a, env);
    }
  }

  /** Every step of every call keeps the invariant. */
  lemma ActorStepIsGood(w: World, a: Actor, env: Env)
    requires IsGoodFor(w, a)
    requires IsHonestStep(w.store, a)
    ensures IsGoodStep(w, ActorStep(w, a, env))
  {
    hide IsGoodFor, IsGoodStep, IsHonest, ActorStep, IsCatching, IsCompensation;
    if IsUploading(a) {
      UploadingIsGood(w, a, env);
    } else if IsCatching(a) {
      CatchingIsGood(w, a, env);
    } else if IsCompensation(a) {
      CompensationIsGood(w, a, env);
    } else {
      RecoveryIsGood(w, a, env);
    }
  }

  /** A transaction that commits after its call was told of an error. */
  lemma CommitIsGood(w: World, a: Actor, env: Env)
    requires IsGoodFor(w, a) && a.Committing? && IsHonestStep(w.store, a)
    ensures IsGoodStep(w, ActorStep(w, a, env))
  {
    hide IsIndexed, IsRegistered, IsLinked, IsStoreLater, IsQuiet, HasReadyFiles, IsSnapshot, IsCondemned;
    hide CallTransition, CallPublish, CallComplete, IsHonest, Applied;
    UnchangedIsLater(w.store);
    var o := ActorStep(w, a, env);
    if env.works && a.write.PublishRow? {
      LatePublicationIsGood(w, a, env);
    } else {
      if env.works {
        LateWriteIsQuiet(w, a, env);
      }
      QuietOutcome(w, o);
    }
  }

  lemma LateWriteIsQuiet(w: World, a: Actor, env: Env)
    requires IsGoodFor(w, a) && a.Committing? && IsHonestStep(w.store, a) && !a.write.PublishRow?
    ensures var next := Applied(w.store, a.write);
            Agrees(next) && IsStoreLater(w.store, next) && IsQuiet(w.store, next)
  {
    hide Agrees, IsStoreLater, IsQuiet, HasReadyFiles, IsSnapshot, IsHonest, Transition, Reserve, CompensationSafety;
    var lasting := env.(works := true, replyLost := false);
    match a.write {
      case ReserveRow(proposal, atMs) => ReservationReplies(w.store, proposal, atMs);
      case MoveRow(job, atMs, action) =>
        assert job in Held(a);
        TransitionReplies(w.store, job, atMs, action, lasting);
      case CompleteRow(job, atMs, action) =>
        assert job in Held(a);
        CompletionReplies(w.store, job, atMs, action, lasting);
    }
  }

  lemma LatePublicationIsGood(w: World, a: Actor, env: Env)
    requires IsGoodFor(w, a) && a.Committing? && a.write.PublishRow? && env.works
    ensures IsGoodStep(w, ActorStep(w, a, env))
  {
    hide IsIndexed, IsRegistered, IsLinked, IsStoreLater, IsQuiet, HasReadyFiles, IsSnapshot, IsCondemned;
    hide Transition, Publish;
    var write := a.write;
    assert write.job in Held(a);
    var sent := env.(works := true, replyLost := false, atMs := write.atMs, capacity := write.capacity);
    assert IsSafe(w.store, w.files, MarkingReady(write.job));
    PublicationReplies(w.store, w.files, write.job, sent);
    assert Applied(w.store, write) == CallPublish(w.store, write.job, sent).store;
    NothingVanishes(w.(store := Applied(w.store, write)));
    hide KeepsFinals;
  }

  lemma IdleStepIsGood(w: World, a: Actor)
    requires IsGoodFor(w, a)
    ensures IsGoodStep(w, GoTo(w, a))
  {
    UnchangedIsLater(w.store);
    hide IsSafe, IsIndexed, IsRegistered, IsLinked, IsStoreLater, HasReadyFiles;
  }

  // ---------------------------------------------------------------------------------------------
  // Every event keeps the invariant
  // ---------------------------------------------------------------------------------------------

  /** What one event leaves behind for everyone. */
  ghost predicate IsWorldLater(w: World, next: World) {
    && IsStoreLater(w.store, next.store)
    && KeepsFinals(next.store, w.files, next.files)
  }

  lemma ProceedIsGood(w: World, i: nat, env: Env)
    requires IsGood(w) && IsLegal(w, Proceed(i, env))
    ensures IsGood(Next(w, Proceed(i, env))) && IsWorldLater(w, Next(w, Proceed(i, env)))
  {
    hide IsIndexed, IsRegistered, IsLinked, IsStoreLater, HasReadyFiles, IsCondemned, IsSafe, ActorStep;
    hide KeepsFinals, IsHonestStep;
    UnchangedIsLater(w.store);
    if i < |w.actors| {
      ActorStepIsGood(w, w.actors[i], env);
      var o := ActorStep(w, w.actors[i], env);
      OthersOf(w, o.store, o.files);
      StraysOf(w, o.store);
    } else {
      NothingVanishes(w);
    }
  }

  lemma NothingVanishes(w: World)
    ensures KeepsFinals(w.store, w.files, w.files)
  {
  }

  lemma OthersOf(w: World, next: Store, left: set<File>)
    requires IsGood(w) && IsIndexed(next) && IsStoreLater(w.store, next) && KeepsFinals(next, w.files, left)
    ensures forall i | 0 <= i < |w.actors| :: IsSafe(next, left, w.actors[i])
  {
    hide IsIndexed, IsRegistered, IsLinked, IsStoreLater, HasReadyFiles, IsCondemned, IsSafe, KeepsFinals;
    forall i | 0 <= i < |w.actors|
      ensures IsSafe(next, left, w.actors[i])
    {
      OthersStaySafe(w.store, w.files, next, left, w.actors[i]);
    }
  }

  lemma StraysOf(w: World, next: Store)
    requires IsGood(w) && IsStoreLater(w.store, next)
    ensures forall key | key in w.strays :: IsCondemned(next, key)
  {
    hide IsIndexed, IsRegistered, IsLinked, IsStoreLater, HasReadyFiles, IsCondemned, IsSafe;
    forall key | key in w.strays
      ensures IsCondemned(next, key)
    {
      LaterStaysCondemned(w.store, next, key);
    }
  }
}
