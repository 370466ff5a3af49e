/**
 A compensation without attempts in the midst of everything else: in every run it stays the same row, and the
 drainer's next one, unless somebody is on the way to a review of it.
 */
module ImageProtocolStuckRow {
  import opened Outcomes
  import opened ImageJobPolicy
  import opened ImageJobEffects
  import opened ImageJobRecovery
  import opened ImageStores
  import opened ImageStoreAgreement
  import opened ImageProtocol
  import opened ImageProtocolSafety
  import opened ImageProtocolWrites
  import opened ImageProtocolRuns
  import opened ImageProtocolDrives
  import opened ImageProtocolCompensation
  import opened ImageProtocolStarvation

  /** No reference error turns up, neither in a drive of the job's recovery nor as the code of an I/O error. */
  predicate IsOrdinary(e: Event, jobId: string) {
    && (e.StartReview? ==> e.jobId != jobId)
    && (e.Proceed? || e.TimeOut? ==> !IsReferenceFailure(e.env.code))
  }

  predicate AreOrdinary(es: seq<Event>, jobId: string) {
    forall e | e in es :: IsOrdinary(e, jobId)
  }

  predicate IsRefused(job: ImageJob, write: Write) {
    write.MoveRow? && write.job == job ==> Transition(job, Command(job.version, write.atMs, write.action)).Err?
  }

  /** The call is not on the way to a review of the row `job`, nor is an acceptable command to it still open. */
  predicate IsHarmless(a: Actor, job: ImageJob) {
    match a
    case ReadingForReview(row, _) => row.request.jobId != job.request.jobId
    case MarkingForReview(row, _) => row != job
    case RecordingUnsafe(_, failure, caller) =>
      caller.RecoveryLoop? && caller.snapshot.request.jobId == job.request.jobId ==> !IsReferenceFailure(failure)
    case Committing(write) => IsRefused(job, write)
    case _ => true
  }

  ghost predicate AreHarmless(w: World, job: ImageJob) {
    forall i | 0 <= i < |w.actors| :: IsHarmless(w.actors[i], job)
  }

  predicate IsRow(s: Store, job: ImageJob) {
    Lookup(s.jobs, job.request.jobId) == Some(job)
  }

  // ---------------------------------------------------------------------------------------------
  // No statement is accepted
  // ---------------------------------------------------------------------------------------------

  /** The ledger accepts nothing over such a row but to ask for compensation again, or for a review. */
  lemma OnlyInterventionsPass(job: ImageJob, c: Command)
    requires IsSound(job) && IsExhausted(job) && Transition(job, c).Ok?
    ensures IsIntervention(c.action)
  {
    hide IsSound, Transition, Effect;
    AcceptedIsSoundStep(job, c);
  }

  lemma WritesAreRefused(a: Actor, job: ImageJob, env: Env)
    requires IsSound(job) && IsExhausted(job) && IsHarmless(a, job) && WriteOf(a, env).Some?
    ensures IsRefused(job, WriteOf(a, env).value)
  {
    hide IsSound, Transition, IsReferenceFailure, SafeCode, HasLiveLease, PlanRestart;
    var write := WriteOf(a, env).value;
    if write.MoveRow? && write.job == job && !a.Committing? {
      var c := Command(job.version, write.atMs, write.action);
      if a.Acting? {
        ExhaustedPlan(job, a.evidence, a.nowMs);
      }
      if Transition(job, c).Ok? {
        OnlyInterventionsPass(job, c);
      }
    }
  }

  lemma MoveKeepsRow(s: Store, job: ImageJob, write: Write)
    requires IsRow(s, job) && IsRefused(job, write) && write.MoveRow? && IsSnapshot(s, write.job)
    ensures IsRow(Applied(s, write), job)
  {
    hide IsValid, Apply;
  }

  lemma OtherWriteKeepsRow(s: Store, job: ImageJob, write: Write)
    requires IsRow(s, job) && IsSound(job) && IsExhausted(job) && IsFitting(write)
    requires write.PublishRow? || write.CompleteRow?
    ensures IsRow(Applied(s, write), job)
  {
    hide IsSound, Transition, CompensationSafety, ReadyPaths, ReadyPathsInScope, MatchesJob, HasReadyRegistration;
    var c := if write.PublishRow?
             then Command(write.job.version, write.atMs, MarkReady(TokenOf(write.job), true, true))
             else Command(write.job.version, write.atMs, write.action);
    if Transition(job, c).Ok? {
      OnlyInterventionsPass(job, c);
    }
  }

  lemma ReservationKeepsRow(s: Store, job: ImageJob, proposal: NewImageJob, atMs: int)
    requires IsRow(s, job) && IsIndexed(s)
    ensures IsRow(OrElse(s, Reserve(s, proposal, atMs)), job)
  {
    hide IsSound, IsManagedImagePath, IsSameRequest, IsValid;
  }

  /** Whatever a harmless call sends, the row stays. */
  lemma WriteKeepsRow(s: Store, files: set<File>, job: ImageJob, a: Actor, env: Env)
    requires IsIndexed(s) && IsSafe(s, files, a) && IsRow(s, job) && IsSound(job) && IsExhausted(job)
    requires IsHarmless(a, job)
    ensures IsRow(Written(s, WriteOf(a, env), env), job)
  {
    hide IsIndexed, IsSnapshot, IsSound, IsExhausted, IsHarmless, WriteOf, Applied, IsRow, IsSafe;
    if WriteOf(a, env).Some? {
      var write := WriteOf(a, env).value;
      WriteIsSafe(s, files, a, env);
      WritesAreRefused(a, job, env);
      HeldWrite(s, files, write);
      match write {
        case ReserveRow(proposal, atMs) =>
          ReservationKeepsRow(s, job, proposal, atMs);
          ReservesRow(s, proposal, atMs);
        case MoveRow(_, _, _) => MoveKeepsRow(s, job, write);
        case _ => OtherWriteKeepsRow(s, job, write);
      }
    }
  }

  lemma ReservesRow(s: Store, proposal: NewImageJob, atMs: int)
    ensures Applied(s, ReserveRow(proposal, atMs)) == OrElse(s, Reserve(s, proposal, atMs))
  {
    hide Reserve;
  }

  lemma HeldWrite(s: Store, files: set<File>, write: Write)
    requires IsSafe(s, files, Committing(write))
    ensures IsFitting(write) && (!write.ReserveRow? ==> IsSnapshot(s, write.job))
  {
    hide IsSnapshot;
    if !write.ReserveRow? {
      assert write.job in Held(Committing(write));
    }
  }

  // ---------------------------------------------------------------------------------------------
  // Nobody comes on the way to a review
  // ---------------------------------------------------------------------------------------------

  /** Under agreement the safety check of a remembered compensation always passes. */
  lemma SafetyPasses(s: Store, job: ImageJob)
    requires Agrees(s) && IsSnapshot(s, job) && job.state.Compensating?
    ensures CompensationSafety(s, job.request.jobId).Pass?
  {
    hide Agrees, CompensationSafety;
    UnpublishedIsUnseen(s, job.request.jobId);
  }

  lemma CodesAreHarmless(e: StoreError)
    requires !e.ImageAttached? && !e.ImageReferenced?
    ensures !IsReferenceFailure(CodeOf(e))
  {
    if e.Policy? {
      PolicyCodesAreNoReferences(e.error);
    }
    hide PolicyCodeOf;
  }

  predicate IsHarmlessError(r: Result<ImageJob, string>) {
    r.Err? ==> !IsReferenceFailure(r.error)
  }

  lemma MovesFailHarmlessly(s: Store, job: ImageJob, atMs: int, a: Action, env: Env)
    requires !IsReferenceFailure(env.code)
    ensures IsHarmlessError(CallTransition(s, job, atMs, a, env).row)
  {
    hide Transition, IsReferenceFailure, CodeOf;
    var r := TransitionJob(s, job.request.jobId, Command(job.version, atMs, a));
    if r.Err? {
      CodesAreHarmless(r.error);
    }
  }

  lemma CompletionsFailHarmlessly(s: Store, job: ImageJob, atMs: int, a: Action, env: Env)
    requires Agrees(s) && IsSnapshot(s, job) && job.state.Compensating? && !IsReferenceFailure(env.code)
    ensures IsHarmlessError(CallComplete(s, job, atMs, a, env).row)
  {
    hide Transition, IsReferenceFailure, CodeOf, CompensationSafety, Agrees, IsSnapshot;
    SafetyPasses(s, job);
    var r := CompleteCompensation(s, job.request.jobId, Command(job.version, atMs, a));
    if r.Err? {
      CodesAreHarmless(r.error);
    }
  }

  lemma ResumesHarmlessly(caller: Caller, failure: Option<string>, job: ImageJob)
    requires caller.RecoveryLoop? && caller.snapshot.request.jobId == job.request.jobId && failure.Some? ==>
               !IsReferenceFailure(failure.value)
    ensures IsHarmless(Resume(caller, failure), job)
  {
    hide IsReferenceFailure;
  }

  lemma CompensateStepIsHarmless(w: World, a: Actor, job: ImageJob, env: Env)
    requires IsGoodFor(w, a) && IsHarmless(a, job) && IsCompensation(a) && !IsReferenceFailure(env.code)
    ensures IsHarmless(CompensateStep(w, a, env).actor, job)
  {
    hide Agrees, HasReadyFiles, IsSnapshot, Transition, IsReferenceFailure, CompensationSafety, Resume;
    hide CallTransition, CallComplete, SafeCode, OpeningAction;
    assert a.job in Held(a);
    match a {
      case StartingCompensation(row, failure, caller) =>
        var action := OpeningAction(row, failure, env.atMs);
        MovesFailHarmlessly(w.store, row, env.atMs, action, env);
        var reply := CallTransition(w.store, row, env.atMs, action, env);
        ResumesHarmlessly(caller, None, job);
        ResumesHarmlessly(caller, if reply.row.Err? then Some(reply.row.error) else None, job);
      case ClaimingCompensation(row, caller) =>
        MovesFailHarmlessly(w.store, row, env.atMs, ClaimAction(env), env);
        var reply := CallTransition(w.store, row, env.atMs, ClaimAction(env), env);
        ResumesHarmlessly(caller, if reply.row.Err? then Some(reply.row.error) else None, job);
      case CheckingSafety(row, caller) => SafetyPasses(w.store, row);
      case RecordingUnsafe(row, failure, caller) => ResumesHarmlessly(caller, Some(failure), job);
      case Unlinking(row, caller, rest) => ResumesHarmlessly(caller, Some(env.code), job);
      case Completing(row, caller) =>
        var action := MarkCompensated(TokenOf(row), true, true);
        CompletionsFailHarmlessly(w.store, row, env.atMs, action, env);
        var reply := CallComplete(w.store, row, env.atMs, action, env);
        ResumesHarmlessly(caller, if reply.row.Err? then Some(reply.row.error) else None, job);
    }
  }

  lemma RecoverStepIsHarmless(w: World, a: Actor, job: ImageJob, env: Env)
    requires IsGoodFor(w, a) && IsHarmless(a, job) && IsReconciling(a) && !IsReferenceFailure(env.code)
    ensures IsHarmless(RecoverStep(w, a, env).actor, job)
  {
    hide IsReferenceFailure, RecoverStep, IsGoodFor;
    if a.ReadingForReview? {
      ReadIsHarmless(w, a, job, env);
    } else if a.CheckingRecovery? || a.CompletingRecovery? {
      RecoveryFailsHarmlessly(w, a, job, env);
    } else {
      SweepIsHarmless(w, a, job, env);
    }
  }

  lemma ReadIsHarmless(w: World, a: Actor, job: ImageJob, env: Env)
    requires IsGoodFor(w, a) && IsHarmless(a, job) && a.ReadingForReview?
    ensures IsHarmless(RecoverStep(w, a, env).actor, job)
  {
    hide IsRegistered, IsLinked, HasReadyFiles, IsSound, IsManagedImagePath;
  }

  lemma RecoveryFailsHarmlessly(w: World, a: Actor, job: ImageJob, env: Env)
    requires IsGoodFor(w, a) && (a.CheckingRecovery? || a.CompletingRecovery?) && !IsReferenceFailure(env.code)
    ensures IsHarmless(RecoverStep(w, a, env).actor, job)
  {
    hide Agrees, HasReadyFiles, IsReferenceFailure, CompensationSafety, CallComplete, IsSnapshot;
    assert a.job in Held(a);
    if a.CheckingRecovery? {
      SafetyPasses(w.store, a.job);
    } else {
      CompletionsFailHarmlessly(w.store, a.job, a.nowMs, RecoverCompensated(true, true), env);
    }
  }

  lemma SweepIsHarmless(w: World, a: Actor, job: ImageJob, env: Env)
    requires a.Requeueing? || a.UnlinkingRecovery? || a.Sweeping? || a.MarkingForReview?
    requires !IsReferenceFailure(env.code)
    ensures IsHarmless(RecoverStep(w, a, env).actor, job)
  {
    hide CallTransition, IsReferenceFailure, SafeCode, FinalsIn;
  }

  lemma CatchStepIsHarmless(w: World, a: Actor, job: ImageJob, env: Env)
    requires IsCatching(a)
    ensures IsHarmless(CatchStep(w, a, env).actor, job)
  {
    hide CallTransition, IsReferenceFailure, SafeCode, IsAttachableJob, ReadRow, IsAmbiguousExecution;
  }

  lemma DriveStepIsHarmless(w: World, a: Actor, job: ImageJob, env: Env)
    requires IsUploading(a)
    ensures IsHarmless(ActorStep(w, a, env).actor, job)
  {
    hide CallTransition, CallPublish, IsAttachableJob, HasReadyRegistration, DecideReservation, Reserve;
  }

  lemma ActStepIsHarmless(w: World, a: Actor, job: ImageJob, env: Env)
    requires a.Acting?
    ensures IsHarmless(ActStep(w, a, env).actor, job)
  {
    hide CallTransition, PlanRestart;
  }

  lemma StepIsHarmless(w: World, a: Actor, job: ImageJob, env: Env)
    requires IsGoodFor(w, a) && IsHarmless(a, job) && !IsReferenceFailure(env.code)
    ensures IsHarmless(ActorStep(w, a, env).actor, job)
  {
    hide IsGoodFor, DriveStep, UploadStep, CatchStep, CompensateStep, ActStep, RecoverStep, IsReferenceFailure;
    hide Applied, Observe, MergeObservations, HasReadyRegistration;
    if IsUploading(a) {
      DriveStepIsHarmless(w, a, job, env);
    } else if IsCatching(a) {
      CatchStepIsHarmless(w, a, job, env);
    } else if IsCompensation(a) {
      CompensateStepIsHarmless(w, a, job, env);
    } else if IsReconciling(a) {
      RecoverStepIsHarmless(w, a, job, env);
    } else if a.Acting? {
      ActStepIsHarmless(w, a, job, env);
    }
  }

  // ---------------------------------------------------------------------------------------------
  // Every ordinary run
  // ---------------------------------------------------------------------------------------------

  /** The row, and nobody on the way to a review of it. */
  ghost predicate IsStuck(w: World, job: ImageJob) {
    IsGood(w) && IsRow(w.store, job) && AreHarmless(w, job)
  }

  lemma GoodForCall(w: World, i: nat)
    requires IsGood(w) && i < |w.actors|
    ensures IsGoodFor(w, w.actors[i]) && IsIndexed(w.store)
  {
    hide IsSafe, IsIndexed, IsRegistered, IsLinked, HasReadyFiles, IsCondemned;
  }

  lemma ProceedStaysStuck(w: World, i: nat, env: Env, job: ImageJob)
    requires IsStuck(w, job) && IsSound(job) && IsExhausted(job) && i < |w.actors|
    requires !IsReferenceFailure(env.code)
    ensures var next := Next(w, Proceed(i, env));
            IsRow(next.store, job) && AreHarmless(next, job)
  {
    hide IsGood, IsGoodFor, IsIndexed, IsRow, IsSound, IsExhausted, IsHarmless, IsReferenceFailure, ActorStep;
    hide Written, WriteOf;
    var a := w.actors[i];
    GoodForCall(w, i);
    SafeOfGood(w, i);
    StepWrites(w, a, env);
    hide IsSafe;
    WriteKeepsRow(w.store, w.files, job, a, env);
    StepIsHarmless(w, a, job, env);
  }

  lemma TimeOutStaysStuck(w: World, i: nat, env: Env, job: ImageJob)
    requires IsStuck(w, job) && IsSound(job) && IsExhausted(job) && !IsReferenceFailure(env.code)
    ensures var next := Next(w, TimeOut(i, env));
            IsRow(next.store, job) && AreHarmless(next, job)
  {
    hide IsGood, IsRow, IsSound, IsExhausted, IsHarmless, IsReferenceFailure, ActorStep, WriteOf;
    if i < |w.actors| && WriteOf(w.actors[i], env).Some? {
      var failing := env.(works := false);
      ProceedStaysStuck(w, i, failing, job);
      WritesAreRefused(w.actors[i], job, env);
      CommittingIsHarmless(job, WriteOf(w.actors[i], env).value);
    }
  }

  lemma CommittingIsHarmless(job: ImageJob, write: Write)
    ensures IsHarmless(Committing(write), job) <==> IsRefused(job, write)
  {
    hide IsRefused;
  }

  lemma ArrivalStaysStuck(w: World, e: Event, job: ImageJob)
    requires IsStuck(w, job) && IsOrdinary(e, job.request.jobId)
    requires e.StartUpload? || e.StartRecovery? || e.StartReview?
    ensures IsRow(Next(w, e).store, job) && AreHarmless(Next(w, e), job)
  {
    hide IsGood, IsRow, NeedsRecovery, IsReferenceFailure;
    if e.StartReview? && e.jobId in w.store.jobs {
      IdOfGood(w, e.jobId);
    }
  }

  lemma IdOfGood(w: World, jobId: string)
    requires IsGood(w) && jobId in w.store.jobs
    ensures w.store.jobs[jobId].request.jobId == jobId
  {
    GoodAgrees(w);
    RowsAreSound(w.store, jobId);
    hide IsSound, IsSafe, IsGood, IsIndexed, IsRegistered, IsLinked;
  }

  lemma EventStaysStuck(w: World, e: Event, job: ImageJob)
    requires IsStuck(w, job) && IsExhausted(job) && IsLegal(w, e) && IsOrdinary(e, job.request.jobId)
    ensures IsStuck(Next(w, e), job)
  {
    hide IsGood, IsSound, IsExhausted, IsHarmless, IsReferenceFailure, IsLegal, Agrees, WriteOf, ActorStep, Execute;
    EventIsGood(w, e);
    GoodAgrees(w);
    CurrentIsSound(w.store, job);
    match e {
      case Proceed(i, env) =>
        if i < |w.actors| {
          ProceedStaysStuck(w, i, env, job);
        }
      case TimeOut(i, env) => TimeOutStaysStuck(w, i, env, job);
      case Crash(_) => assert IsHarmless(Crashed, job) by { CrashedIsHarmless(job); }
      case StrayUnlink(_) =>
      case Disturb(_, _) =>
      case UseImage(op) =>
        if op.LinkOp? || op.UnlinkOp? || op.AttachOp? {
          UseKeepsRows(w.store, op);
        }
      case _ => ArrivalStaysStuck(w, e, job);
    }
  }

  lemma CrashedIsHarmless(job: ImageJob)
    ensures IsHarmless(Crashed, job)
  {
  }

  lemma {:induction false} RunStaysStuck(w: World, job: ImageJob, es: seq<Event>)
    requires IsStuck(w, job) && IsExhausted(job) && IsLegalRun(w, es) && AreOrdinary(es, job.request.jobId)
    ensures IsStuck(RunAll(w, es), job)
  {
    hide IsStuck, IsExhausted, IsOrdinary, Next, IsLegal;
    if es != [] {
      var front, e := es[..|es| - 1], es[|es| - 1];
      RunStaysStuck(w, job, front);
      EventStaysStuck(RunAll(w, front), e, job);
    }
  }

  // ---------------------------------------------------------------------------------------------
  // ... and only those
  // ---------------------------------------------------------------------------------------------

  lemma ReviewAccepted(job: ImageJob, failure: string) returns (next: ImageJob)
    requires IsSound(job) && IsExhausted(job) && job.version < MAX_SAFE_INTEGER
    ensures var c := Command(job.version, job.updatedAtMs, MarkManualReview(SafeCode(failure)));
            Transition(job, c) == Ok(next)
  {
    SafeCodeIsCode(failure);
    hide IsRequest, IsErrorCode, IsLeaseOwner, IsHexText, SafeCode;
    next := AcceptedNext(
      job, Command(job.version, job.updatedAtMs, MarkManualReview(SafeCode(failure))));
  }

  /** A step of call i that sends an acceptable command takes the row away. */
  lemma SendingMoves(w: World, i: nat, job: ImageJob, env: Env, write: Write)
    requires IsGood(w) && IsRow(w.store, job) && i < |w.actors| && env.works
    requires WriteOf(w.actors[i], env) == Some(write) && !IsRefused(job, write)
    ensures !IsRow(Next(w, Proceed(i, env)).store, job)
  {
    hide IsGood, IsSound, Transition, WriteOf, ActorStep, Agrees;
    GoodAgrees(w);
    CurrentIsSound(w.store, job);
    StepWrites(w, w.actors[i], env);
    var c := Command(job.version, write.atMs, write.action);
    CommandMovesRow(w.store, job, c, Transition(job, c).value);
    AcceptedVersion(job, c);
  }

  lemma AcceptedVersion(job: ImageJob, c: Command)
    requires IsSound(job) && Transition(job, c).Ok?
    ensures Transition(job, c).value != job
  {
    hide IsSound, Transition;
    AcceptedIsSoundStep(job, c);
  }

  /** Some ordinary run takes the row away. */
  ghost predicate CanMove(w: World, job: ImageJob) {
    exists es: seq<Event> ::
      IsLegalRun(w, es) && AreOrdinary(es, job.request.jobId) && !IsRow(RunAll(w, es).store, job)
  }

  lemma MovesAtOnce(w: World, job: ImageJob, e: Event)
    requires IsLegal(w, e) && IsOrdinary(e, job.request.jobId) && !IsRow(Next(w, e).store, job)
    ensures CanMove(w, job)
  {
    hide Next, IsLegal, IsOrdinary, IsRow, RunAll, IsLegalRun;
    OneStep(w, e);
    assert AreOrdinary([e], job.request.jobId);
  }

  lemma MovesLater(w: World, job: ImageJob, e: Event)
    requires IsLegal(w, e) && IsOrdinary(e, job.request.jobId) && CanMove(Next(w, e), job)
    ensures CanMove(w, job)
  {
    hide Next, IsLegal, IsOrdinary, IsRow, RunAll, IsLegalRun;
    OneStep(w, e);
    var more: seq<Event> :|
      IsLegalRun(Next(w, e), more) && AreOrdinary(more, job.request.jobId)
      && !IsRow(RunAll(Next(w, e), more).store, job);
    RunsCompose(w, [e], more);
    assert AreOrdinary([e] + more, job.request.jobId);
  }

  /** Everything works at the time of the row. */
  function Timely(job: ImageJob): Env {
    Env(true, false, true, "", job.updatedAtMs, 0, "", 0, 0, InputFile(""), Capacity(0, 0))
  }

  lemma EmptyCodeIsOrdinary()
    ensures !IsReferenceFailure("")
  {
  }

  lemma MarkerMoves(w: World, i: nat, job: ImageJob)
    requires IsGood(w) && IsRow(w.store, job) && IsSound(job) && IsExhausted(job)
    requires job.version < MAX_SAFE_INTEGER && i < |w.actors| && w.actors[i].MarkingForReview?
    requires w.actors[i].job == job
    ensures CanMove(w, job)
  {
    hide IsGood, IsSound, IsExhausted, Transition, Next, SafeCode, IsRow, CanMove;
    var env := Timely(job);
    var next := ReviewAccepted(job, w.actors[i].failure);
    var write := MoveRow(job, job.updatedAtMs, MarkManualReview(SafeCode(w.actors[i].failure)));
    SendingMoves(w, i, job, env, write);
    MovesAtOnce(w, job, Proceed(i, env));
  }

  lemma ReaderMoves(w: World, i: nat, job: ImageJob)
    requires IsGood(w) && IsRow(w.store, job) && IsSound(job) && IsExhausted(job)
    requires job.version < MAX_SAFE_INTEGER && i < |w.actors| && w.actors[i].ReadingForReview?
    requires w.actors[i].job.request.jobId == job.request.jobId
    ensures CanMove(w, job)
  {
    hide IsGood, IsSound, IsExhausted, Next, CanMove, IsRow, IsReferenceFailure;
    var env := Timely(job);
    EmptyCodeIsOrdinary();
    ReviewReads(w, i, job, env);
    StaysGoodOnRead(w, i, env);
    var next := Next(w, Proceed(i, env));
    MarkerMoves(next, i, job);
    MovesLater(w, job, Proceed(i, env));
  }

  lemma StaysGoodOnRead(w: World, i: nat, env: Env)
    requires IsGood(w) && i < |w.actors| && !IsReserving(w.actors[i])
    ensures IsLegal(w, Proceed(i, env)) && IsGood(Next(w, Proceed(i, env)))
  {
    hide IsGood, Next;
    EventIsGood(w, Proceed(i, env));
  }

  lemma ReviewReads(w: World, i: nat, job: ImageJob, env: Env)
    requires IsRow(w.store, job) && IsSound(job) && IsExhausted(job) && env.readable
    requires i < |w.actors| && w.actors[i].ReadingForReview?
    requires w.actors[i].job.request.jobId == job.request.jobId
    ensures var next := Next(w, Proceed(i, env));
            && next.store == w.store && |next.actors| == |w.actors|
            && next.actors[i] == MarkingForReview(job, w.actors[i].failure)
  {
    hide IsRequest, IsErrorCode, IsLease;
  }

  lemma AlarmMoves(w: World, i: nat, job: ImageJob)
    requires IsGood(w) && IsRow(w.store, job) && IsExhausted(job) && job.version < MAX_SAFE_INTEGER
    requires i < |w.actors| && !IsHarmless(w.actors[i], job)
    ensures CanMove(w, job)
  {
    hide IsGood, IsSound, IsExhausted, Transition, Next, IsReferenceFailure, CanMove, Agrees;
    GoodAgrees(w);
    CurrentIsSound(w.store, job);
    EmptyCodeIsOrdinary();
    var a, env := w.actors[i], Timely(job);
    match a {
      case Committing(write) =>
        SendingMoves(w, i, job, env, write);
        MovesAtOnce(w, job, Proceed(i, env));
      case MarkingForReview(_, _) => MarkerMoves(w, i, job);
      case ReadingForReview(_, _) => ReaderMoves(w, i, job);
      case RecordingUnsafe(_, failure, caller) =>
        UnsafeResumes(w, i, job, env);
        StaysGoodOnRead(w, i, env.(works := false));
        ReaderMoves(Next(w, Proceed(i, env.(works := false))), i, job);
        MovesLater(w, job, Proceed(i, env.(works := false)));
    }
  }

  lemma UnsafeResumes(w: World, i: nat, job: ImageJob, env: Env)
    requires i < |w.actors| && w.actors[i].RecordingUnsafe? && !IsHarmless(w.actors[i], job)
    ensures var a := w.actors[i];
            var next := Next(w, Proceed(i, env.(works := false)));
            && next.store == w.store && |next.actors| == |w.actors|
            && next.actors[i] == ReadingForReview(a.caller.snapshot, a.failure)
            && a.caller.snapshot.request.jobId == job.request.jobId
  {
    hide SafeCode, Transition;
  }

  /**
   A compensation without attempts stays the row it is in every ordinary run, whatever other calls, late
   commits, crashes and recoveries do, if and only if nobody is on the way to a review of it now.
   */
  lemma ExhaustedRowStaysExactly(w: World, job: ImageJob)
    requires IsGood(w) && IsRow(w.store, job) && IsExhausted(job) && job.version < MAX_SAFE_INTEGER
    ensures (forall es: seq<Event> :: IsLegalRun(w, es) && AreOrdinary(es, job.request.jobId) ==>
               IsRow(RunAll(w, es).store, job))
            <==> AreHarmless(w, job)
  {
    hide IsGood, IsExhausted, IsHarmless, RunAll, IsLegalRun, IsOrdinary, IsRow;
    if AreHarmless(w, job) {
      forall es: seq<Event> | IsLegalRun(w, es) && AreOrdinary(es, job.request.jobId)
        ensures IsRow(RunAll(w, es).store, job)
      {
        RunStaysStuck(w, job, es);
      }
    } else {
      var i :| 0 <= i < |w.actors| && !IsHarmless(w.actors[i], job);
      AlarmMoves(w, i, job);
    }
  }

  // ---------------------------------------------------------------------------------------------
  // The drainer in the midst of everything else
  // ---------------------------------------------------------------------------------------------

  /** Every other row that is not final has changed later. */
  predicate RestsLongest(s: Store, job: ImageJob) {
    forall id | id in s.jobs && id != job.request.jobId && !IsFinal(s.jobs[id].state) ::
      job.updatedAtMs < s.jobs[id].updatedAtMs
  }

  function ReservedAt(a: Actor): int
    requires IsReserving(a)
  {
    if a.Reserving? then a.atMs else a.write.reservedAtMs
  }

  /** Every row still to come is created later than `atMs`. */
  ghost predicate AllArriveAfter(w: World, atMs: int) {
    forall i | 0 <= i < |w.actors| && IsReserving(w.actors[i]) :: atMs < ReservedAt(w.actors[i])
  }

  predicate AllStartAfter(es: seq<Event>, atMs: int) {
    forall e | e in es && e.StartUpload? :: atMs < e.atMs
  }

  lemma AppliedAddsReserved(s: Store, write: Write, id: string)
    requires id in Applied(s, write).jobs && id !in s.jobs
    ensures write.ReserveRow? && Applied(s, write).jobs[id].updatedAtMs == write.reservedAtMs
  {
    hide Transition, IsReferenced, ReadyPaths, ReadyPathsInScope, MatchesJob, HasReadyRegistration;
    hide IsValid, IsSameRequest;
  }

  /** A row appears only by a reservation, and with its time. */
  lemma RowsAreReserved(w: World, e: Event, id: string)
    requires id in Next(w, e).store.jobs && id !in w.store.jobs
    ensures e.Proceed? && e.i < |w.actors| && IsReserving(w.actors[e.i])
    ensures Next(w, e).store.jobs[id].updatedAtMs == ReservedAt(w.actors[e.i])
  {
    hide ActorStep, Execute, NeedsRecovery, WriteOf, Applied, InFlight;
    match e {
      case Proceed(i, env) =>
        if i < |w.actors| {
          StepWrites(w, w.actors[i], env);
          AppliedAddsReserved(w.store, WriteOf(w.actors[i], env).value, id);
          ReservingWrites(w.actors[i], env);
        }
      case TimeOut(i, env) =>
        if i < |w.actors| {
          StepWrites(w, w.actors[i], env.(works := false));
        }
      case UseImage(op) =>
        if op.LinkOp? || op.UnlinkOp? || op.AttachOp? {
          UseKeepsRows(w.store, op);
        }
      case _ =>
    }
  }

  lemma ReservingWrites(a: Actor, env: Env)
    ensures WriteOf(a, env).Some? && WriteOf(a, env).value.ReserveRow? <==> IsReserving(a)
    ensures IsReserving(a) ==> WriteOf(a, env).value.reservedAtMs == ReservedAt(a)
  {
    hide PlanRestart, OpeningAction, UnsafeAction, SafeCode;
  }

  lemma EventKeepsArrivals(w: World, e: Event, atMs: int)
    requires AllArriveAfter(w, atMs) && (e.StartUpload? ==> atMs < e.atMs)
    ensures AllArriveAfter(Next(w, e), atMs)
  {
    hide ActorStep, Execute, NeedsRecovery, WriteOf, InFlight;
    match e {
      case Proceed(i, env) =>
        if i < |w.actors| {
          StepsReserveNoMore(w, w.actors[i], env);
        }
      case TimeOut(i, env) =>
        if i < |w.actors| {
          StepsReserveNoMore(w, w.actors[i], env.(works := false));
          ReservingWrites(w.actors[i], env);
        }
      case _ =>
    }
  }

  /** No step makes a call start to reserve. */
  lemma StepsReserveNoMore(w: World, a: Actor, env: Env)
    ensures var o := ActorStep(w, a, env); IsReserving(o.actor) ==> a == o.actor
  {
    hide UploadStep, DriveStep, CatchStep, CompensateStep, ActStep, RecoverStep, Applied, Observe;
    hide MergeObservations, HasReadyRegistration;
    DriversReserveNoMore(w, a, env);
    OthersReserveNoMore(w, a, env);
  }

  lemma DriversReserveNoMore(w: World, a: Actor, env: Env)
    ensures a.Reserving? || a.DiscardingInput? ==> !IsReserving(UploadStep(w, a, env).actor)
    ensures IsUploading(a) && !a.Reserving? && !a.DiscardingInput? ==> !IsReserving(DriveStep(w, a, env).actor)
    ensures IsCatching(a) ==> !IsReserving(CatchStep(w, a, env).actor)
  {
    hide CallTransition, CallPublish, IsAttachableJob, HasReadyRegistration, DecideReservation, Reserve;
    hide ReadRow, SafeCode, IsReferenceFailure, IsAmbiguousExecution;
  }

  lemma OthersReserveNoMore(w: World, a: Actor, env: Env)
    ensures IsCompensation(a) ==> !IsReserving(CompensateStep(w, a, env).actor)
    ensures a.Acting? ==> !IsReserving(ActStep(w, a, env).actor)
    ensures IsReconciling(a) ==> !IsReserving(RecoverStep(w, a, env).actor)
  {
    hide CallTransition, CallComplete, CompensationSafety, SafeCode, OpeningAction, PlanRestart, ReadRow, FinalsIn;
    hide IsReferenceFailure, IsStaleFailure;
  }

  lemma EventKeepsRest(w: World, e: Event, job: ImageJob)
    requires IsGood(w) && IsLegal(w, e) && RestsLongest(w.store, job) && AllArriveAfter(w, job.updatedAtMs)
    ensures RestsLongest(Next(w, e).store, job)
  {
    hide IsGood, IsLegal, Next, IsCondemned, KeepsFinals;
    EventIsGood(w, e);
    var next := Next(w, e).store;
    forall id | id in next.jobs && id != job.request.jobId && !IsFinal(next.jobs[id].state)
      ensures job.updatedAtMs < next.jobs[id].updatedAtMs
    {
      if id in w.store.jobs {
        assert IsLater(w.store.jobs[id], next.jobs[id]);
      } else {
        RowsAreReserved(w, e, id);
      }
    }
  }

  lemma {:induction false} RunKeepsRest(w: World, job: ImageJob, es: seq<Event>)
    requires IsGood(w) && IsLegalRun(w, es) && RestsLongest(w.store, job)
    requires AllArriveAfter(w, job.updatedAtMs) && AllStartAfter(es, job.updatedAtMs)
    ensures RestsLongest(RunAll(w, es).store, job) && AllArriveAfter(RunAll(w, es), job.updatedAtMs)
  {
    hide IsGood, IsLegal, Next, RestsLongest, AllArriveAfter;
    if es != [] {
      var front, e := es[..|es| - 1], es[|es| - 1];
      RunKeepsRest(w, job, front);
      RunsStayGood(w, front);
      EventKeepsRest(RunAll(w, front), e, job);
      EventKeepsArrivals(RunAll(w, front), e, job.updatedAtMs);
    }
  }

  /** It comes first in the list of rows to recover, and no other row does. */
  predicate IsAloneFirst(s: Store, jobId: string, nowMs: int) {
    && IsListedFirst(s, jobId, nowMs)
    && forall id | id in s.jobs && IsListedFirst(s, id, nowMs) :: id == jobId
  }

  lemma RestIsListed(s: Store, job: ImageJob, nowMs: int)
    requires IsRow(s, job) && IsExhausted(job) && RestsLongest(s, job) && IsDue(job, nowMs)
    ensures IsAloneFirst(s, job.request.jobId, nowMs)
  {
    hide IsDue;
    assert NeedsRecovery(job, nowMs);
  }

  /**
   Recovery starves in every ordinary run, not only while the drainer is alone: once a compensation without
   attempts rests longest and later uploads are created later, then at every moment of every run, whenever it
   is due, it and it alone comes first in the list that the drainer takes one row of.
   */
  lemma ExhaustedRowStaysFirst(w: World, job: ImageJob, es: seq<Event>, nowMs: int)
    requires IsGood(w) && IsRow(w.store, job) && IsExhausted(job) && AreHarmless(w, job)
    requires RestsLongest(w.store, job) && AllArriveAfter(w, job.updatedAtMs)
    requires IsLegalRun(w, es) && AreOrdinary(es, job.request.jobId) && AllStartAfter(es, job.updatedAtMs)
    requires IsDue(job, nowMs)
    ensures var s := RunAll(w, es).store;
            IsRow(s, job) && IsAloneFirst(s, job.request.jobId, nowMs)
  {
    hide IsGood, IsRow, AreHarmless, IsExhausted, IsLegalRun, RunAll, RestsLongest, IsDue, IsAloneFirst;
    RunStaysStuck(w, job, es);
    RunKeepsRest(w, job, es);
    RestIsListed(RunAll(w, es).store, job, nowMs);
  }
}
