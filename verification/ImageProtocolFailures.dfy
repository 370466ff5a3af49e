/**
 What becomes of a job whose upload fails half-way: the exact end of the catch blocks of #driveImageJob on
 every row, when their own calls work.
 */
module ImageProtocolFailures {
  import opened Outcomes
  import opened ImageJobPolicy
  import opened ImageJobEffects
  import opened ImageJobRecovery
  import opened ImageStores
  import opened ImageStoreAgreement
  import opened ImageProtocol
  import opened ImageProtocolSafety
  import opened ImageProtocolRuns
  import opened ImageProtocolDrives
  import opened ImageProtocolCompensation

  // ---------------------------------------------------------------------------------------------
  // Into the catch blocks
  // ---------------------------------------------------------------------------------------------

  /** The row that the driver works on, and how far it had come. */
  function DrivenJob(a: Actor): Option<ImageJob> {
    match a
    case Executing(job) => Some(job)
    case RecordingOutput(job, _, _) => Some(job)
    case BeginningPublication(job) => Some(job)
    case Renaming(job) => Some(job)
    case _ => None
  }

  /**
   A driver's call that fails without effect changes nothing. Before the claim the upload ends there; from
   the claim to the rename the outer catch block takes over, and the inner one when the publication fails.
   */
  lemma FailedStepIsCaught(w: World, i: nat, env: Env)
    requires i < |w.actors| && !env.works
    ensures var a := w.actors[i];
            && (DrivenJob(a).Some? ==>
                  Next(w, Proceed(i, env))
                  == Moved(w, i, w.store, w.files, ReadingAfterFailure(DrivenJob(a).value, false, env.code)))
            && (a.MarkingReady? ==>
                  Next(w, Proceed(i, env)) == Moved(w, i, w.store, w.files, ReadingAfterPublish(a.job, env.code)))
            && (a.Claiming? || (a.Driving? && a.job.state.Requested?) ==>
                  Next(w, Proceed(i, env)) == Moved(w, i, w.store, w.files, Done(None)))
            && (a.Reserving? ==>
                  Next(w, Proceed(i, env))
                  == Moved(w, i, w.store, w.files, DiscardingInput(a.proposal.inputStorageKey, None)))
  {
    hide Transition, Publish;
  }

  /** A refused or failed reservation, or one that found another job's row, costs the new input file alone. */
  lemma DiscardedInputGoes(w: World, i: nat, key: string, continuation: Option<ImageJob>, env: Env)
    requires i < |w.actors| && w.actors[i] == DiscardingInput(key, continuation) && env.works
    ensures Next(w, Proceed(i, env))
            == Moved(
                 w, i, w.store, w.files - {InputFile(key)},
                 if continuation.Some? then Driving(continuation.value) else Done(None))
  {
  }

  // ---------------------------------------------------------------------------------------------
  // The outer catch block
  // ---------------------------------------------------------------------------------------------

  /** A step of the catch blocks, as the world sees it. */
  lemma CatchSeen(w: World, i: nat, env: Env)
    requires i < |w.actors|
    requires
      var a := w.actors[i];
      || a.ReadingAfterPublish? || a.CheckingAfterPublish? || a.Finishing? || a.ReadingAfterFailure?
      || a.CheckingAfterFailure? || a.CleaningPrivate? || a.RecordingFailure?
    ensures var o := CatchStep(w, w.actors[i], env);
            Next(w, Proceed(i, env)) == World(o.store, o.files, o.strays, w.actors[i := o.actor])
  {
    hide CatchStep;
  }

  /** What the outer catch block does about the row it reads. */
  datatype Remedy = Answer | Compensate | RecordIt | LeaveIt

  /**
   A row that turns out ready is answered. A row that may have a public file is compensated, unless it
   already was or somebody uses the image. A row still at work is failed, unless the worker may still be
   working on it. Everything else is left to the recovery.
   */
  function RemedyFor(row: ImageJob, mayBePublic: bool, failure: string): Remedy {
    if row.state == Ready then Answer
    else if (mayBePublic || row.state == Publishing)
            && failure != "IMAGE_JOB_REFERENCED" && failure != "IMAGE_JOB_ATTACHED" then
      if row.state == Compensated then LeaveIt else Compensate
    else if (row.state == Processing || row.state == OutputReady)
            && failure != "IMAGE_JOB_TIMEOUT" && failure != "IMAGE_QUEUE_UNAVAILABLE" then RecordIt
    else LeaveIt
  }

  lemma RowIsRead(w: World, i: nat, job: ImageJob, row: ImageJob, mayBePublic: bool, failure: string, env: Env)
    requires i < |w.actors| && w.actors[i] == ReadingAfterFailure(job, mayBePublic, failure) && env.readable
    requires Lookup(w.store.jobs, job.request.jobId) == Some(row)
    ensures Next(w, Proceed(i, env))
            == Moved(
                 w, i, w.store, w.files,
                 match RemedyFor(row, mayBePublic, failure)
                 case Answer => CheckingAfterFailure(job, row, mayBePublic, failure)
                 case Compensate => StartingCompensation(row, failure, FailedDriver)
                 case RecordIt => CleaningPrivate(row, failure, {TempOf(row), InputOf(row)})
                 case LeaveIt => Done(None))
  {
    CatchSeen(w, i, env);
    hide Next;
  }

  /** The row was ready all along, and so is its file: the path is answered after all. */
  lemma ReadyIsAnswered(w: World, i: nat, job: ImageJob, row: ImageJob, mayBePublic: bool, failure: string, env: Env)
    requires IsGood(w) && i < |w.actors| && w.actors[i] == CheckingAfterFailure(job, row, mayBePublic, failure)
    requires Lookup(w.store.jobs, job.request.jobId) == Some(row) && row.request == job.request
    requires row.state == Ready && env.works
    ensures Drives(
              w, i, env, 2,
              Moved(w, i, w.store, w.files - {InputOf(job)}, Done(Some(job.request.outputStorageKey))))
  {
    hide Next, Drives, IsGood, IsSound, IsAttachableJob, Agrees;
    GoodAgrees(w);
    CurrentIsSound(w.store, row);
    SoundAttachable(row);
    FinalIsThere(w, row);
    DriveStarts(w, i, env);
    CatchSeen(w, i, env);
    DrivesOn(w, i, env, 0, w, env.file);
    var finishing := Moved(w, i, w.store, w.files, Finishing(row, false));
    CatchSeen(finishing, i, env);
    DrivesOn(w, i, env, 1, finishing, env.file);
    LastMoveCounts(
      w, i, w.store, w.files, Finishing(row, false), w.store, w.files - {InputOf(job)},
      Done(Some(job.request.outputStorageKey)));
  }

  lemma FinalIsThere(w: World, row: ImageJob)
    requires IsGood(w) && Lookup(w.store.jobs, row.request.jobId) == Some(row) && row.state == Ready
    ensures FinalOf(row) in w.files
  {
    hide IsSafe, IsIndexed, IsRegistered, IsLinked;
  }

  // ---------------------------------------------------------------------------------------------
  // A failure that is recorded
  // ---------------------------------------------------------------------------------------------

  /** The row after its failure was recorded; a lease that has run out cannot record it any more. */
  predicate IsRecorded(row: ImageJob, failure: string, atMs: int, left: ImageJob) {
    if HasLiveLease(row, atMs) then
      && left.state == Failed && left.request == row.request && left.lease == None
      && left.lastErrorCode == Some(SafeCode(failure)) && left.failedAtMs == Some(atMs)
      && left.attemptCount == row.attemptCount && left.version == row.version + 1
    else left == row
  }

  lemma RecordAccepted(row: ImageJob, failure: string, atMs: int) returns (left: ImageJob)
    requires IsSound(row) && (row.state.Processing? || row.state.OutputReady?) && HasLiveLease(row, atMs)
    requires row.updatedAtMs <= atMs <= MAX_SAFE_INTEGER && row.version < MAX_SAFE_INTEGER
    ensures var action := RecordFailure(TokenOf(row), SafeCode(failure), false, true, None);
            Transition(row, Command(row.version, atMs, action)) == Ok(left)
    ensures IsRecorded(row, failure, atMs, left)
  {
    SafeCodeIsCode(failure);
    hide IsRequest, IsErrorCode, IsLeaseOwner, IsHexText, SafeCode;
    var action := RecordFailure(TokenOf(row), SafeCode(failure), false, true, None);
    left := AcceptedNext(row, Command(row.version, atMs, action));
  }

  lemma RecordRefused(row: ImageJob, failure: string, atMs: int)
    requires IsSound(row) && (row.state.Processing? || row.state.OutputReady?) && !HasLiveLease(row, atMs)
    requires row.updatedAtMs <= atMs <= MAX_SAFE_INTEGER
    ensures var action := RecordFailure(TokenOf(row), SafeCode(failure), false, true, None);
            Transition(row, Command(row.version, atMs, action)) == Err(StaleLease)
  {
    hide IsRequest, IsErrorCode, IsLeaseOwner, IsHexText, SafeCode;
  }

  lemma FailureRecorded(w: World, i: nat, row: ImageJob, failure: string, env: Env) returns (left: ImageJob)
    requires IsCurrent(w, i, RecordingFailure(row, failure), row) && IsSound(row) && IsPrompt(env, row)
    requires row.version < MAX_SAFE_INTEGER && (row.state.Processing? || row.state.OutputReady?)
    ensures IsRecorded(row, failure, env.atMs, left)
    ensures Next(w, Proceed(i, env)) == Moved(w, i, WithRow(w.store, row.request.jobId, left), w.files, Done(None))
  {
    hide IsSound, Transition, CallTransition, IsLease, Next, SafeCode, HasLiveLease;
    var action := RecordFailure(TokenOf(row), SafeCode(failure), false, true, None);
    if HasLiveLease(row, env.atMs) {
      left := RecordAccepted(row, failure, env.atMs);
      Commanded(w.store, row, env.atMs, action, env, left);
    } else {
      left := row;
      RecordRefused(row, failure, env.atMs);
      Refused(w.store, row, env.atMs, action, env, StaleLease);
      SameRow(w.store, row);
    }
    CatchSeen(w, i, env);
  }

  /** Both private files go, whichever removal completes first. */
  lemma PrivateFilesGo(w: World, i: nat, row: ImageJob, failure: string, env: Env)
    requires i < |w.actors| && w.actors[i] == CleaningPrivate(row, failure, {TempOf(row), InputOf(row)})
    requires env.works && row.lease.Some?
    ensures Drives(
              w, i, env, 2,
              Moved(w, i, w.store, w.files - {TempOf(row), InputOf(row)}, RecordingFailure(row, failure)))
  {
    hide Next, Drives;
    var temp, input := TempOf(row), InputOf(row);
    DriveStarts(w, i, env);
    CatchSeen(w, i, env.(file := temp));
    DrivesOn(w, i, env, 0, w, temp);
    assert {temp, input} - {temp} == {input};
    var half := Moved(w, i, w.store, w.files - {temp}, CleaningPrivate(row, failure, {input}));
    CatchSeen(half, i, env.(file := input));
    DrivesOn(w, i, env, 1, half, input);
    assert {input} - {input} == {};
    assert w.files - {temp} - {input} == w.files - {temp, input};
    LastMoveCounts(
      w, i, w.store, w.files - {temp}, half.actors[i], w.store, w.files - {temp, input},
      RecordingFailure(row, failure));
  }

  ghost predicate EndsRecorded(w: World, i: nat, row: ImageJob, failure: string, atMs: int, after: World)
    requires i < |w.actors|
  {
    exists left: ImageJob ::
      && IsRecorded(row, failure, atMs, left)
      && after == Moved(
                    w, i, WithRow(w.store, row.request.jobId, left), w.files - {TempOf(row), InputOf(row)},
                    Done(None))
  }

  /** Clean up, record. */
  lemma WorkIsFailed(w: World, i: nat, row: ImageJob, failure: string, env: Env) returns (after: World)
    requires IsCurrent(w, i, CleaningPrivate(row, failure, {TempOf(row), InputOf(row)}), row) && IsSound(row)
    requires IsPrompt(env, row) && row.version < MAX_SAFE_INTEGER
    requires row.state.Processing? || row.state.OutputReady?
    ensures Drives(w, i, env, 3, after) && EndsRecorded(w, i, row, failure, env.atMs, after)
  {
    hide Next, Drives, IsSound, IsLease, IsRecorded, WithRow;
    WorkingIsLeased(row);
    PrivateFilesGo(w, i, row, failure, env);
    var left := w.files - {TempOf(row), InputOf(row)};
    var mid := Moved(w, i, w.store, left, RecordingFailure(row, failure));
    var failed := FailureRecorded(mid, i, row, failure, env);
    DrivesOn(w, i, env, 2, mid, env.file);
    after := Next(mid, Proceed(i, env));
    LastMoveCounts(
      w, i, w.store, left, RecordingFailure(row, failure), WithRow(w.store, row.request.jobId, failed), left,
      Done(None));
  }

  lemma WorkingIsLeased(row: ImageJob)
    requires IsSound(row) && IsWorking(row.state)
    ensures row.lease.Some?
  {
    hide IsRequest, IsErrorCode, IsLease;
  }

  /**
   The exact end of the outer catch block, whatever failed before it and whatever the row has become: the
   path is answered for a ready row, the row is compensated, failed, or left for the recovery to find.
   */
  lemma CatchOutcome(w: World, i: nat, job: ImageJob, row: ImageJob, mayBePublic: bool, failure: string, env: Env)
    returns (n: nat, after: World)
    requires IsGood(w) && i < |w.actors| && w.actors[i] == ReadingAfterFailure(job, mayBePublic, failure)
    requires Lookup(w.store.jobs, job.request.jobId) == Some(row) && row.request == job.request
    requires IsPrompt(env, row) && row.version + 3 <= MAX_SAFE_INTEGER
    ensures Drives(w, i, env, n, after) && n <= 9
    ensures match RemedyFor(row, mayBePublic, failure)
            case Answer =>
              after == Moved(w, i, w.store, w.files - {InputOf(job)}, Done(Some(job.request.outputStorageKey)))
            case Compensate => IsOutcome(w, i, row, FailedDriver, env.atMs, after)
            case RecordIt => EndsRecorded(w, i, row, failure, env.atMs, after)
            case LeaveIt => after == Moved(w, i, w.store, w.files, Done(None))
  {
    hide Next, Drives, IsGood, IsSound, IsLease, IsOutcome, EndsRecorded, Agrees;
    GoodAgrees(w);
    CurrentIsSound(w.store, row);
    RowIsRead(w, i, job, row, mayBePublic, failure, env);
    var next := Next(w, Proceed(i, env));
    DriveStarts(w, i, env);
    DrivesOn(w, i, env, 0, w, env.file);
    DrivesStayGood(w, i, env, 1, next);
    match RemedyFor(row, mayBePublic, failure) {
      case Answer =>
        ReadyIsAnswered(next, i, job, row, mayBePublic, failure, env);
        n, after := 3, Moved(w, i, w.store, w.files - {InputOf(job)}, Done(Some(job.request.outputStorageKey)));
        LastMoveCounts(
          w, i, w.store, w.files, next.actors[i], w.store, w.files - {InputOf(job)}, after.actors[i]);
        DrivesCompose(w, i, env, 1, next, 2, after);
      case Compensate =>
        var m, end := CompensationOutcome(next, i, row, failure, FailedDriver, env);
        n, after := 1 + m, end;
        DrivesCompose(w, i, env, 1, next, m, after);
        SameOutcome(w, i, next.actors[i], row, FailedDriver, env.atMs, after);
      case RecordIt =>
        after := WorkIsFailed(next, i, row, failure, env);
        n := 4;
        DrivesCompose(w, i, env, 1, next, 3, after);
        RecordedAlike(w, i, next.actors[i], row, failure, env.atMs, after);
      case LeaveIt =>
        n, after := 1, next;
    }
  }

  lemma RecordedAlike(w: World, i: nat, a: Actor, row: ImageJob, failure: string, atMs: int, after: World)
    requires i < |w.actors| && EndsRecorded(Moved(w, i, w.store, w.files, a), i, row, failure, atMs, after)
    ensures EndsRecorded(w, i, row, failure, atMs, after)
  {
    hide IsRecorded, WithRow;
  }

  // ---------------------------------------------------------------------------------------------
  // The inner catch block
  // ---------------------------------------------------------------------------------------------

  /** A publication that the store refuses is caught with the refusal's code. */
  lemma RefusedPublicationIsCaught(w: World, i: nat, job: ImageJob, env: Env)
    requires i < |w.actors| && w.actors[i] == MarkingReady(job) && env.works
    requires var c := Command(job.version, env.atMs, MarkReady(TokenOf(job), true, true));
             Publish(w.store, job.request.jobId, c, Registration(job, env.atMs), env.capacity).Err?
    ensures var c := Command(job.version, env.atMs, MarkReady(TokenOf(job), true, true));
            var refusal := Publish(w.store, job.request.jobId, c, Registration(job, env.atMs), env.capacity).error;
            Next(w, Proceed(i, env))
            == Moved(w, i, w.store, w.files, ReadingAfterPublish(job, CodeOf(refusal)))
  {
    DriveSeen(w, i, env);
    hide Next, Publish;
  }

  /** The row and the files of a job whose publication was taken back; the upload is not answered. */
  ghost predicate EndsTakenBack(w: World, i: nat, row: ImageJob, after: World)
    requires i < |w.actors|
  {
    exists left: ImageJob ::
      && left.state == Compensated && left.request == row.request
      && after == Moved(w, i, WithRow(w.store, row.request.jobId, left), w.files - AllFilesOf(row), Done(None))
  }

  lemma PublicationIsRead(w: World, i: nat, job: ImageJob, row: ImageJob, failure: string, env: Env)
    requires i < |w.actors| && w.actors[i] == ReadingAfterPublish(job, failure) && env.readable
    requires Lookup(w.store.jobs, job.request.jobId) == Some(row)
    ensures Next(w, Proceed(i, env))
            == Moved(
                 w, i, w.store, w.files,
                 if row.state == Ready then CheckingAfterPublish(job, row, failure)
                 else StartingCompensation(row, failure, PublishingDriver(job, failure)))
  {
    CatchSeen(w, i, env);
    hide Next;
  }

  lemma PublishedIsAnswered(w: World, i: nat, job: ImageJob, row: ImageJob, failure: string, env: Env)
    requires IsGood(w) && i < |w.actors| && w.actors[i] == CheckingAfterPublish(job, row, failure)
    requires Lookup(w.store.jobs, job.request.jobId) == Some(row) && row.request == job.request
    requires row.state == Ready && env.works
    ensures Drives(
              w, i, env, 2,
              Moved(w, i, w.store, w.files - {InputOf(job)}, Done(Some(job.request.outputStorageKey))))
  {
    hide Next, Drives, IsGood, IsSound, IsAttachableJob, Agrees;
    GoodAgrees(w);
    CurrentIsSound(w.store, row);
    SoundAttachable(row);
    FinalIsThere(w, row);
    DriveStarts(w, i, env);
    CatchSeen(w, i, env);
    DrivesOn(w, i, env, 0, w, env.file);
    var finishing := Moved(w, i, w.store, w.files, Finishing(row, true));
    CatchSeen(finishing, i, env);
    DrivesOn(w, i, env, 1, finishing, env.file);
    LastMoveCounts(
      w, i, w.store, w.files, Finishing(row, true), w.store, w.files - {InputOf(job)},
      Done(Some(job.request.outputStorageKey)));
  }

  /** Compensated without a refusal, the outer catch block has nothing left to do. */
  lemma TakenBack(w: World, i: nat, job: ImageJob, row: ImageJob, failure: string, env: Env, mid: World)
    returns (after: World)
    requires i < |w.actors| && row.request == job.request && Refusal(row, env.atMs).None? && env.readable
    requires IsOutcome(w, i, row, PublishingDriver(job, failure), env.atMs, mid)
    ensures Drives(mid, i, env, 1, after) && EndsTakenBack(w, i, row, after)
  {
    hide WithRow, AllFilesOf, Next, Drives;
    var left: ImageJob :|
      left.request == row.request && mid.store == WithRow(w.store, row.request.jobId, left)
      && IsLeftBy(row, env.atMs, left);
    IsRowOf(w.store, row.request.jobId, left);
    assert mid.actors[i] == ReadingAfterFailure(job, true, failure);
    DriveStarts(mid, i, env);
    RowIsRead(mid, i, job, left, true, failure, env);
    DrivesOn(mid, i, env, 0, mid, env.file);
    after := Next(mid, Proceed(i, env));
    assert mid.actors[i := Done(None)] == w.actors[i := Done(None)];
  }

  /**
   The exact end after a publication that failed, or seemed to: answered if it had taken effect after all,
   and otherwise taken back, with the row compensated and all files removed.
   */
  lemma FailedPublicationOutcome(w: World, i: nat, job: ImageJob, row: ImageJob, failure: string, env: Env)
    returns (n: nat, after: World)
    requires IsGood(w) && i < |w.actors| && w.actors[i] == ReadingAfterPublish(job, failure)
    requires Lookup(w.store.jobs, job.request.jobId) == Some(row) && row.request == job.request
    requires row.state == Ready || Refusal(row, env.atMs).None?
    requires IsPrompt(env, row) && row.version + 3 <= MAX_SAFE_INTEGER
    ensures Drives(w, i, env, n, after) && n <= 10
    ensures if row.state == Ready then
              after == Moved(w, i, w.store, w.files - {InputOf(job)}, Done(Some(job.request.outputStorageKey)))
            else EndsTakenBack(w, i, row, after)
  {
    hide Next, Drives, IsGood, IsLease, IsOutcome, EndsTakenBack, Refusal;
    PublicationIsRead(w, i, job, row, failure, env);
    var next := Next(w, Proceed(i, env));
    DriveStarts(w, i, env);
    DrivesOn(w, i, env, 0, w, env.file);
    DrivesStayGood(w, i, env, 1, next);
    if row.state == Ready {
      PublishedIsAnswered(next, i, job, row, failure, env);
      n, after := 3, Moved(w, i, w.store, w.files - {InputOf(job)}, Done(Some(job.request.outputStorageKey)));
      LastMoveCounts(w, i, w.store, w.files, next.actors[i], w.store, w.files - {InputOf(job)}, after.actors[i]);
      DrivesCompose(w, i, env, 1, next, 2, after);
    } else {
      var caller := PublishingDriver(job, failure);
      var m, mid := CompensationOutcome(next, i, row, failure, caller, env);
      DrivesCompose(w, i, env, 1, next, m, mid);
      SameOutcome(w, i, next.actors[i], row, caller, env.atMs, mid);
      after := TakenBack(w, i, job, row, failure, env, mid);
      n := 1 + m + 1;
      DrivesCompose(w, i, env, 1 + m, mid, 1, after);
    }
  }

  // ---------------------------------------------------------------------------------------------
  // A compensation that fails
  // ---------------------------------------------------------------------------------------------

  /**
   A compensation's call that fails without effect: an unsafe one is recorded, a failed removal leaves the
   other removals under way, and in every other case the caller is told the code.
   */
  lemma FailedCompensationStep(w: World, i: nat, env: Env)
    requires i < |w.actors| && !env.works
    ensures var a := w.actors[i];
            && (a.CheckingSafety? ==>
                  Next(w, Proceed(i, env)) == Moved(w, i, w.store, w.files, RecordingUnsafe(a.job, env.code, a.caller)))
            && (a.Unlinking? && a.rest != {} ==>
                  Next(w, Proceed(i, env))
                  == Moved(w, i, w.store, w.files, Resume(a.caller, Some(env.code))).(
                    strays := w.strays + FinalsIn(a.rest)))
            && (a.RecordingUnsafe? ==>
                  Next(w, Proceed(i, env)) == Moved(w, i, w.store, w.files, Resume(a.caller, Some(a.failure))))
            && (a.ClaimingCompensation? || a.Completing? ==>
                  Next(w, Proceed(i, env)) == Moved(w, i, w.store, w.files, Resume(a.caller, Some(env.code))))
  {
    hide Transition, CompleteCompensation, CompensationSafety, Resume;
  }

  /**
   A compensation found unsafe by its live holder: it is asked for again once the lease would have run out,
   or reviewed by hand when its attempts are used up.
   */
  predicate IsSetAside(job: ImageJob, failure: string, env: Env, left: ImageJob) {
    && left.request == job.request && left.lease == None && left.lastErrorCode == Some(SafeCode(failure))
    && left.compensationAttemptCount == job.compensationAttemptCount && left.version == job.version + 1
    && (if job.compensationAttemptCount < job.request.maxCompensationAttempts
        then left.state == CompensationRequired && left.nextAttemptAtMs == Some(env.atMs + env.leaseMs)
        else left.state == ManualReview && left.nextAttemptAtMs == None)
  }

  lemma UnsafeAccepted(job: ImageJob, failure: string, env: Env) returns (left: ImageJob)
    requires IsSound(job) && job.state.Compensating? && HasLiveLease(job, env.atMs)
    requires IsPrompt(env, job) && job.version < MAX_SAFE_INTEGER
    ensures Transition(job, Command(job.version, env.atMs, UnsafeAction(job, failure, env))) == Ok(left)
    ensures IsSetAside(job, failure, env, left)
  {
    SafeCodeIsCode(failure);
    hide IsRequest, IsErrorCode, IsLeaseOwner, IsHexText, SafeCode;
    left := AcceptedNext(job, Command(job.version, env.atMs, UnsafeAction(job, failure, env)));
  }

  lemma UnsafeIsRecorded(w: World, i: nat, job: ImageJob, failure: string, caller: Caller, env: Env)
    returns (left: ImageJob)
    requires IsCurrent(w, i, RecordingUnsafe(job, failure, caller), job) && IsSound(job)
    requires job.state.Compensating? && HasLiveLease(job, env.atMs)
    requires IsPrompt(env, job) && job.version < MAX_SAFE_INTEGER
    ensures IsSetAside(job, failure, env, left)
    ensures Next(w, Proceed(i, env))
            == Moved(w, i, WithRow(w.store, job.request.jobId, left), w.files, Resume(caller, Some(failure)))
  {
    hide IsSound, Transition, CallTransition, IsLease, Next, Resume, HasLiveLease, SafeCode, UnsafeAction, IsSetAside;
    left := UnsafeAccepted(job, failure, env);
    Commanded(w.store, job, env.atMs, UnsafeAction(job, failure, env), env, left);
    CompensateSeen(w, i, env);
  }

  // ---------------------------------------------------------------------------------------------
  // A review
  // ---------------------------------------------------------------------------------------------

  /** Nobody holds the row, and it is neither finished nor under review. */
  predicate IsReviewable(row: ImageJob) {
    && row.state != Ready && row.state != Compensated && row.state != ManualReview
    && row.lease == None
  }

  predicate IsPutUnderReview(row: ImageJob, failure: string, left: ImageJob) {
    && left.state == ManualReview && left.request == row.request && left.version == row.version + 1
    && left.lastErrorCode == Some(SafeCode(failure))
    && left.compensationAttemptCount == row.compensationAttemptCount
  }

  lemma ReviewAllowed(row: ImageJob, failure: string, atMs: int) returns (left: ImageJob)
    requires IsSound(row) && IsReviewable(row)
    requires row.updatedAtMs <= atMs <= MAX_SAFE_INTEGER && row.version < MAX_SAFE_INTEGER
    ensures Transition(row, Command(row.version, atMs, MarkManualReview(SafeCode(failure)))) == Ok(left)
    ensures IsPutUnderReview(row, failure, left)
  {
    SafeCodeIsCode(failure);
    hide IsRequest, IsErrorCode, IsLeaseOwner, IsHexText, SafeCode;
    left := AcceptedNext(row, Command(row.version, atMs, MarkManualReview(SafeCode(failure))));
  }

  lemma ReviewSeen(w: World, i: nat, env: Env)
    requires i < |w.actors| && (w.actors[i].ReadingForReview? || w.actors[i].MarkingForReview?)
    ensures var o := RecoverStep(w, w.actors[i], env);
            Next(w, Proceed(i, env)) == World(o.store, o.files, o.strays, w.actors[i := o.actor])
  {
    hide RecoverStep;
  }

  ghost predicate EndsUnderReview(w: World, i: nat, row: ImageJob, failure: string, after: World)
    requires i < |w.actors|
  {
    exists left: ImageJob ::
      && IsPutUnderReview(row, failure, left)
      && after == Moved(w, i, WithRow(w.store, row.request.jobId, left), w.files, Done(None))
  }

  /** The recovery that met a used image: the row is put under review exactly when it is reviewable. */
  lemma ReviewOutcome(w: World, i: nat, job: ImageJob, row: ImageJob, failure: string, env: Env)
    returns (n: nat, after: World)
    requires i < |w.actors| && w.actors[i] == ReadingForReview(job, failure) && IsSound(row)
    requires Lookup(w.store.jobs, job.request.jobId) == Some(row) && row.request == job.request
    requires IsPrompt(env, row) && row.version < MAX_SAFE_INTEGER
    ensures Drives(w, i, env, n, after) && n <= 2
    ensures if IsReviewable(row) then EndsUnderReview(w, i, row, failure, after)
            else after == Moved(w, i, w.store, w.files, Done(None))
  {
    hide Next, Drives, IsSound, IsLease, Transition, CallTransition, SafeCode, IsPutUnderReview;
    DriveStarts(w, i, env);
    ReviewSeen(w, i, env);
    DrivesOn(w, i, env, 0, w, env.file);
    n, after := 1, Next(w, Proceed(i, env));
    if IsReviewable(row) {
      var mid := after;
      var left := ReviewAllowed(row, failure, env.atMs);
      Commanded(mid.store, row, env.atMs, MarkManualReview(SafeCode(failure)), env, left);
      ReviewSeen(mid, i, env);
      DrivesOn(w, i, env, 1, mid, env.file);
      n, after := 2, Next(mid, Proceed(i, env));
      LastMoveCounts(
        w, i, w.store, w.files, mid.actors[i], WithRow(w.store, row.request.jobId, left), w.files, Done(None));
    }
  }

  /** Any row of the ledger may meet this at any moment. */
  lemma ReviewMayStart(w: World, row: ImageJob, failure: string, env: Env) returns (n: nat, after: World)
    requires Lookup(w.store.jobs, row.request.jobId) == Some(row) && IsSound(row)
    requires IsPrompt(env, row) && row.version < MAX_SAFE_INTEGER
    ensures var started, i := Next(w, StartReview(row.request.jobId, failure)), |w.actors|;
            && |started.actors| == i + 1
            && Drives(started, i, env, n, after)
            && if IsReviewable(row) then EndsUnderReview(started, i, row, failure, after)
               else after == Moved(started, i, w.store, w.files, Done(None))
  {
    hide Drives, IsSound, EndsUnderReview, IsPrompt, ActorStep;
    var started := Next(w, StartReview(row.request.jobId, failure));
    n, after := ReviewOutcome(started, |w.actors|, row, row, failure, env);
  }
}
