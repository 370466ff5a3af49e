/**
 What becomes of a compensation: the exact end of #compensatePublishedJob on every row, when the row is
 still the current one and the calls all work.
 */
module ImageProtocolCompensation {
  import opened Outcomes
  import opened ImageJobPolicy
  import opened ImageJobEffects
  import opened ImageJobRecovery
  import opened ImageStores
  import opened ImageStoreAgreement
  import opened ImageProtocol
  import opened ImageProtocolSafety
  import opened ImageProtocolRuns
  import opened ImageProtocolDrives

  /** Every call works and answers, no earlier than the row's last change, under a lease of some length. */
  predicate IsPrompt(env: Env, job: ImageJob) {
    && env.works && !env.replyLost && env.readable
    && job.updatedAtMs <= env.atMs <= MAX_SAFE_INTEGER
    && IsLease(Lease("web-compensation-1", env.token, env.atMs, env.atMs + env.leaseMs), env.atMs, true)
  }

  /** Why a compensation of `job` is refused at `atMs`, if it is. */
  function Refusal(job: ImageJob, atMs: int): Option<PolicyError> {
    if IsFinal(job.state) then Some(IllegalTransition)
    else if job.state.Compensating? then
      if HasLiveLease(job, atMs) then None else Some(StaleLease)
    else if job.state.CompensationRequired? && !IsDue(job, atMs) then Some(NotDue)
    else if !HasCompensationAttemptsLeft(job) then Some(AttemptsExhausted)
    else None
  }

  function RefusalCode(job: ImageJob, atMs: int): Option<string> {
    if Refusal(job, atMs).Some? then Some(PolicyCodeOf(Refusal(job, atMs).value)) else None
  }

  /** Whether the three files of the job are removed; an expired compensation removes them all the same. */
  predicate RemovesFiles(job: ImageJob, atMs: int) {
    Refusal(job, atMs).None? || job.state.Compensating?
  }

  // ---------------------------------------------------------------------------------------------
  // The commands
  // ---------------------------------------------------------------------------------------------

  lemma SafeCodeIsCode(failure: string)
    ensures IsErrorCode(SafeCode(failure))
  {
  }

  lemma OpeningAccepted(job: ImageJob, failure: string, atMs: int) returns (next: ImageJob)
    requires IsSound(job) && !IsFinal(job.state) && !job.state.Compensating?
    requires job.updatedAtMs <= atMs && atMs <= MAX_SAFE_INTEGER && job.version < MAX_SAFE_INTEGER
    ensures Transition(job, Command(job.version, atMs, OpeningAction(job, failure, atMs))) == Ok(next)
    ensures IsSound(next) && next.request == job.request && next.state.CompensationRequired?
    ensures next.updatedAtMs == atMs && next.nextAttemptAtMs == Some(atMs) && next.version == job.version + 1
    ensures next.compensationAttemptCount == job.compensationAttemptCount
  {
    SafeCodeIsCode(failure);
    hide IsRequest, IsErrorCode, IsLeaseOwner, IsHexText, SafeCode;
    next := AcceptedNext(job, Command(job.version, atMs, OpeningAction(job, failure, atMs)));
  }

  lemma OpeningRefused(job: ImageJob, failure: string, atMs: int)
    requires IsSound(job) && IsFinal(job.state) && job.updatedAtMs <= atMs && atMs <= MAX_SAFE_INTEGER
    ensures Transition(job, Command(job.version, atMs, OpeningAction(job, failure, atMs))) == Err(IllegalTransition)
  {
    hide IsRequest, IsErrorCode, IsLeaseOwner, IsHexText, SafeCode;
  }

  lemma ClaimAccepted(job: ImageJob, env: Env) returns (next: ImageJob)
    requires IsSound(job) && job.state.CompensationRequired? && IsPrompt(env, job)
    requires Refusal(job, env.atMs).None? && job.version < MAX_SAFE_INTEGER
    ensures Transition(job, Command(job.version, env.atMs, ClaimAction(env))) == Ok(next)
    ensures IsSound(next) && next.request == job.request && next.state.Compensating?
    ensures next.updatedAtMs == env.atMs && next.version == job.version + 1
    ensures next.compensationAttemptCount == job.compensationAttemptCount + 1
    ensures next.lease == Some(Lease("web-compensation-1", env.token, env.atMs, env.atMs + env.leaseMs))
    ensures Refusal(next, env.atMs).None?
  {
    hide IsRequest, IsErrorCode, IsLeaseOwner, IsHexText;
    next := AcceptedNext(job, Command(job.version, env.atMs, ClaimAction(env)));
  }

  lemma ClaimRefused(job: ImageJob, env: Env)
    requires IsSound(job) && job.state.CompensationRequired? && IsPrompt(env, job)
    requires Refusal(job, env.atMs).Some?
    ensures Transition(job, Command(job.version, env.atMs, ClaimAction(env))) == Err(Refusal(job, env.atMs).value)
  {
    hide IsRequest, IsErrorCode, IsLeaseOwner, IsHexText;
  }

  lemma CompletionAccepted(job: ImageJob, atMs: int) returns (next: ImageJob)
    requires IsSound(job) && job.state.Compensating? && HasLiveLease(job, atMs)
    requires job.updatedAtMs <= atMs && atMs <= MAX_SAFE_INTEGER && job.version < MAX_SAFE_INTEGER
    ensures Transition(job, Command(job.version, atMs, MarkCompensated(TokenOf(job), true, true))) == Ok(next)
    ensures next.state.Compensated? && next.request == job.request && IsSound(next)
  {
    hide IsRequest, IsErrorCode, IsLeaseOwner, IsHexText;
    next := AcceptedNext(job, Command(job.version, atMs, MarkCompensated(TokenOf(job), true, true)));
  }

  lemma CompletionRefused(job: ImageJob, atMs: int)
    requires IsSound(job) && job.state.Compensating? && !HasLiveLease(job, atMs)
    requires job.updatedAtMs <= atMs && atMs <= MAX_SAFE_INTEGER
    ensures Transition(job, Command(job.version, atMs, MarkCompensated(TokenOf(job), true, true))) == Err(StaleLease)
  {
    hide IsRequest, IsErrorCode, IsLeaseOwner, IsHexText;
  }

  // ---------------------------------------------------------------------------------------------
  // The steps
  // ---------------------------------------------------------------------------------------------

  lemma Opened(w: World, i: nat, job: ImageJob, failure: string, caller: Caller, env: Env) returns (next: ImageJob)
    requires IsCurrent(w, i, StartingCompensation(job, failure, caller), job) && IsSound(job)
    requires !IsFinal(job.state) && !job.state.CompensationRequired? && !job.state.Compensating?
    requires job.updatedAtMs <= env.atMs && env.atMs <= MAX_SAFE_INTEGER && job.version < MAX_SAFE_INTEGER
    requires env.works && !env.replyLost
    ensures Next(w, Proceed(i, env))
            == Moved(w, i, WithRow(w.store, job.request.jobId, next), w.files, ClaimingCompensation(next, caller))
    ensures IsSound(next) && next.request == job.request && next.state.CompensationRequired?
    ensures next.updatedAtMs == env.atMs && next.nextAttemptAtMs == Some(env.atMs)
    ensures next.version == job.version + 1 && next.compensationAttemptCount == job.compensationAttemptCount
  {
    hide IsSound, Transition, CallTransition, Next, Resume, SafeCode, HasLiveLease;
    next := OpeningAccepted(job, failure, env.atMs);
    Commanded(w.store, job, env.atMs, OpeningAction(job, failure, env.atMs), env, next);
    CompensateSeen(w, i, env);
  }

  lemma NotOpened(w: World, i: nat, job: ImageJob, failure: string, caller: Caller, env: Env)
    requires IsCurrent(w, i, StartingCompensation(job, failure, caller), job) && IsSound(job)
    requires IsFinal(job.state) && job.updatedAtMs <= env.atMs && env.atMs <= MAX_SAFE_INTEGER && env.works
    ensures Next(w, Proceed(i, env)) == Moved(w, i, w.store, w.files, Resume(caller, Some("ILLEGAL_TRANSITION")))
  {
    hide IsSound, Transition, CallTransition, Next, Resume, SafeCode, HasLiveLease;
    OpeningRefused(job, failure, env.atMs);
    Refused(w.store, job, env.atMs, OpeningAction(job, failure, env.atMs), env, IllegalTransition);
    CompensateSeen(w, i, env);
  }

  lemma WentOn(w: World, i: nat, job: ImageJob, failure: string, caller: Caller, env: Env)
    requires i < |w.actors| && w.actors[i] == StartingCompensation(job, failure, caller)
    requires job.state.CompensationRequired? || (job.state.Compensating? && job.lease.Some?)
    ensures Next(w, Proceed(i, env))
            == Moved(
                 w, i, w.store, w.files,
                 if job.state.CompensationRequired? then ClaimingCompensation(job, caller)
                 else CheckingSafety(job, caller))
  {
    hide Next, Resume;
    CompensateSeen(w, i, env);
  }

  lemma Claimed(w: World, i: nat, job: ImageJob, caller: Caller, env: Env) returns (next: ImageJob)
    requires IsCurrent(w, i, ClaimingCompensation(job, caller), job)
    requires IsSound(job) && job.state.CompensationRequired? && IsPrompt(env, job)
    requires Refusal(job, env.atMs).None? && job.version < MAX_SAFE_INTEGER
    ensures Next(w, Proceed(i, env))
            == Moved(w, i, WithRow(w.store, job.request.jobId, next), w.files, CheckingSafety(next, caller))
    ensures IsSound(next) && next.request == job.request && next.state.Compensating?
    ensures next.updatedAtMs == env.atMs && next.version == job.version + 1
    ensures next.compensationAttemptCount == job.compensationAttemptCount + 1
    ensures next.lease == Some(Lease("web-compensation-1", env.token, env.atMs, env.atMs + env.leaseMs))
    ensures Refusal(next, env.atMs).None?
  {
    next := ClaimAccepted(job, env);
    Commanded(w.store, job, env.atMs, ClaimAction(env), env, next);
    CompensateSeen(w, i, env);
    hide IsSound, Transition, CallTransition, Next, Resume, IsLease, Refusal;
  }

  lemma NotClaimed(w: World, i: nat, job: ImageJob, caller: Caller, env: Env)
    requires IsCurrent(w, i, ClaimingCompensation(job, caller), job)
    requires IsSound(job) && job.state.CompensationRequired? && IsPrompt(env, job)
    requires Refusal(job, env.atMs).Some?
    ensures Next(w, Proceed(i, env))
            == Moved(w, i, w.store, w.files, Resume(caller, RefusalCode(job, env.atMs)))
  {
    ClaimRefused(job, env);
    Refused(w.store, job, env.atMs, ClaimAction(env), env, Refusal(job, env.atMs).value);
    CompensateSeen(w, i, env);
    hide IsSound, Transition, CallTransition, Next, Resume, IsLease, Refusal;
  }

  lemma FoundSafe(w: World, i: nat, job: ImageJob, caller: Caller, env: Env)
    requires Agrees(w.store) && IsCurrent(w, i, CheckingSafety(job, caller), job)
    requires job.state.Compensating? && env.works
    ensures Next(w, Proceed(i, env)) == Moved(w, i, w.store, w.files, Unlinking(job, caller, AllFilesOf(job)))
  {
    hide Agrees, Next, CompensationSafety, Held, InCompensation, IsReferenced;
    UnpublishedIsUnseen(w.store, job.request.jobId);
    CompensateSeen(w, i, env);
  }

  lemma Unlinked(w: World, i: nat, job: ImageJob, caller: Caller, rest: set<File>, env: Env)
    requires i < |w.actors| && w.actors[i] == Unlinking(job, caller, rest) && env.works && env.file in rest
    ensures Next(w, Proceed(i, env))
            == Moved(w, i, w.store, w.files - {env.file}, Unlinking(job, caller, rest - {env.file}))
  {
    CompensateSeen(w, i, env);
    hide Next;
  }

  lemma AllUnlinked(w: World, i: nat, job: ImageJob, caller: Caller, env: Env)
    requires i < |w.actors| && w.actors[i] == Unlinking(job, caller, {})
    ensures Next(w, Proceed(i, env)) == Moved(w, i, w.store, w.files, Completing(job, caller))
  {
    CompensateSeen(w, i, env);
    hide Next;
  }

  /** Completion takes effect on the row alone: a row in compensation has no registration to remove. */
  lemma CompletionCommanded(s: Store, job: ImageJob, atMs: int, a: Action, env: Env, next: ImageJob)
    requires Agrees(s) && Lookup(s.jobs, job.request.jobId) == Some(job) && job.state.Compensating?
    requires env.works && !env.replyLost && Transition(job, Command(job.version, atMs, a)) == Ok(next)
    ensures CallComplete(s, job, atMs, a, env) == Reply(WithRow(s, job.request.jobId, next), Ok(next))
  {
    hide Agrees, Transition, CompensationSafety, IsReferenced;
    UnpublishedIsUnseen(s, job.request.jobId);
  }

  lemma CompletionNotCommanded(s: Store, job: ImageJob, atMs: int, a: Action, env: Env, e: PolicyError)
    requires Agrees(s) && Lookup(s.jobs, job.request.jobId) == Some(job) && job.state.Compensating?
    requires env.works && Transition(job, Command(job.version, atMs, a)) == Err(e)
    ensures CallComplete(s, job, atMs, a, env) == Reply(s, Err(PolicyCodeOf(e)))
  {
    hide Agrees, Transition, CompensationSafety, IsReferenced, PolicyCodeOf;
    UnpublishedIsUnseen(s, job.request.jobId);
  }

  lemma Completed(w: World, i: nat, job: ImageJob, caller: Caller, env: Env) returns (next: ImageJob)
    requires Agrees(w.store) && IsCurrent(w, i, Completing(job, caller), job)
    requires IsSound(job) && job.state.Compensating? && HasLiveLease(job, env.atMs)
    requires job.updatedAtMs <= env.atMs && env.atMs <= MAX_SAFE_INTEGER && job.version < MAX_SAFE_INTEGER
    requires env.works && !env.replyLost
    ensures Next(w, Proceed(i, env))
            == Moved(w, i, WithRow(w.store, job.request.jobId, next), w.files, Resume(caller, None))
    ensures next.state.Compensated? && next.request == job.request
  {
    hide Agrees, Next, Transition, Resume, CallComplete, IsSound, HasLiveLease;
    next := CompletionAccepted(job, env.atMs);
    CompletionCommanded(w.store, job, env.atMs, MarkCompensated(TokenOf(job), true, true), env, next);
    CompensateSeen(w, i, env);
  }

  lemma NotCompleted(w: World, i: nat, job: ImageJob, caller: Caller, env: Env)
    requires Agrees(w.store) && IsCurrent(w, i, Completing(job, caller), job)
    requires IsSound(job) && job.state.Compensating? && !HasLiveLease(job, env.atMs)
    requires job.updatedAtMs <= env.atMs && env.atMs <= MAX_SAFE_INTEGER && env.works
    ensures Next(w, Proceed(i, env)) == Moved(w, i, w.store, w.files, Resume(caller, Some("STALE_LEASE")))
  {
    hide Agrees, Next, Transition, Resume, CallComplete, IsSound, HasLiveLease;
    CompletionRefused(job, env.atMs);
    CompletionNotCommanded(
      w.store, job, env.atMs, MarkCompensated(TokenOf(job), true, true), env, StaleLease);
    CompensateSeen(w, i, env);
  }

  // ---------------------------------------------------------------------------------------------
  // The whole call
  // ---------------------------------------------------------------------------------------------

  /** Remove the three files and leave the removals. */
  lemma FilesGo(w: World, i: nat, job: ImageJob, caller: Caller, env: Env)
    requires i < |w.actors| && w.actors[i] == Unlinking(job, caller, AllFilesOf(job)) && env.works
    ensures Drives(w, i, env, 4, Moved(w, i, w.store, w.files - AllFilesOf(job), Completing(job, caller)))
  {
    hide Next, Drives;
    var final, temp, input := FinalOf(job), TempOf(job), InputOf(job);
    DriveStarts(w, i, env);
    assert w == Removing(w, i, w.files, job, caller, AllFilesOf(job));
    hide Removing, Moved;
    FileGoes(w, i, 0, w.files, job, caller, AllFilesOf(job), env, final);
    assert AllFilesOf(job) - {final} == {temp, input};
    FileGoes(w, i, 1, w.files - {final}, job, caller, {temp, input}, env, temp);
    assert {temp, input} - {temp} == {input};
    FileGoes(w, i, 2, w.files - {final} - {temp}, job, caller, {input}, env, input);
    assert {input} - {input} == {};
    NoFileLeft(w, i, w.files - {final} - {temp} - {input}, job, caller, env);
    assert w.files - {final} - {temp} - {input} == w.files - AllFilesOf(job);
  }

  /** The world while call i removes the files that `rest` still names. */
  function Removing(w: World, i: nat, left: set<File>, job: ImageJob, caller: Caller, rest: set<File>): World
    requires i < |w.actors|
  {
    Moved(w, i, w.store, left, Unlinking(job, caller, rest))
  }

  lemma FileGoes(
    w: World, i: nat, n: nat, left: set<File>, job: ImageJob, caller: Caller, rest: set<File>, env: Env, file: File)
    requires i < |w.actors| && env.works && file in rest
    requires Drives(w, i, env, n, Removing(w, i, left, job, caller, rest))
    ensures Drives(w, i, env, n + 1, Removing(w, i, left - {file}, job, caller, rest - {file}))
  {
    hide Next, Drives;
    var mid := Removing(w, i, left, job, caller, rest);
    Unlinked(mid, i, job, caller, rest, env.(file := file));
    DrivesOn(w, i, env, n, mid, file);
    LastMoveCounts(
      w, i, w.store, left, Unlinking(job, caller, rest), w.store, left - {file},
      Unlinking(job, caller, rest - {file}));
  }

  lemma NoFileLeft(w: World, i: nat, left: set<File>, job: ImageJob, caller: Caller, env: Env)
    requires i < |w.actors| && Drives(w, i, env, 3, Removing(w, i, left, job, caller, {}))
    ensures Drives(w, i, env, 4, Moved(w, i, w.store, left, Completing(job, caller)))
  {
    hide Next, Drives;
    var mid := Removing(w, i, left, job, caller, {});
    AllUnlinked(mid, i, job, caller, env);
    DrivesOn(w, i, env, 3, mid, env.file);
    LastMoveCounts(w, i, w.store, left, Unlinking(job, caller, {}), w.store, left, Completing(job, caller));
  }

  lemma CheckedFilesGo(w: World, i: nat, job: ImageJob, caller: Caller, env: Env)
    requires Agrees(w.store) && IsCurrent(w, i, CheckingSafety(job, caller), job)
    requires job.state.Compensating? && env.works
    ensures Drives(w, i, env, 5, Moved(w, i, w.store, w.files - AllFilesOf(job), Completing(job, caller)))
  {
    hide Next, Drives, Agrees;
    DriveStarts(w, i, env);
    FoundSafe(w, i, job, caller, env);
    DrivesOn(w, i, env, 0, w, env.file);
    var w1 := Moved(w, i, w.store, w.files, Unlinking(job, caller, AllFilesOf(job)));
    FilesGo(w1, i, job, caller, env);
    LastMoveCounts(
      w, i, w.store, w.files, Unlinking(job, caller, AllFilesOf(job)), w.store, w.files - AllFilesOf(job),
      Completing(job, caller));
    DrivesCompose(w, i, env, 1, w1, 4, Moved(w, i, w.store, w.files - AllFilesOf(job), Completing(job, caller)));
  }

  /** The row and the call after #compensatePublishedJob has come to its end over `job`. */
  ghost predicate IsOutcome(w: World, i: nat, job: ImageJob, caller: Caller, atMs: int, after: World) {
    && i < |w.actors|
    && after.strays == w.strays
    && after.actors == w.actors[i := Resume(caller, RefusalCode(job, atMs))]
    && after.files == (if RemovesFiles(job, atMs) then w.files - AllFilesOf(job) else w.files)
    && exists row: ImageJob ::
         && row.request == job.request
         && after.store == WithRow(w.store, job.request.jobId, row)
         && IsLeftBy(job, atMs, row)
  }

  /**
   The row is compensated if and only if nothing is refused; a row that was in compensation, or is final,
   is then left as it was, and any other one is left as a compensation without attempts, due at once.
   */
  predicate IsLeftBy(job: ImageJob, atMs: int, row: ImageJob) {
    if Refusal(job, atMs).None? then row.state.Compensated?
    else if IsFinal(job.state) || job.state.CompensationRequired? || job.state.Compensating? then row == job
    else
      && IsExhausted(row)
      && row.version == job.version + 1 && row.updatedAtMs == atMs && row.nextAttemptAtMs == Some(atMs)
  }

  /** From a claimed row: check, remove the files, complete. */
  lemma ClaimedOutcome(w: World, i: nat, job: ImageJob, caller: Caller, env: Env) returns (after: World)
    requires Agrees(w.store) && IsCurrent(w, i, CheckingSafety(job, caller), job)
    requires IsSound(job) && job.state.Compensating? && IsPrompt(env, job) && job.version < MAX_SAFE_INTEGER
    ensures Drives(w, i, env, 6, after) && IsOutcome(w, i, job, caller, env.atMs, after)
  {
    hide Next, Drives, Agrees, IsSound, IsLease, Resume, WithRow, AllFilesOf;
    var files := w.files - AllFilesOf(job);
    CheckedFilesGo(w, i, job, caller, env);
    var mid := Moved(w, i, w.store, files, Completing(job, caller));
    after := Next(mid, Proceed(i, env));
    DrivesOn(w, i, env, 5, mid, env.file);
    if HasLiveLease(job, env.atMs) {
      var row := Completed(mid, i, job, caller, env);
      assert IsLeftBy(job, env.atMs, row);
    } else {
      NotCompleted(mid, i, job, caller, env);
      SameRow(w.store, job);
      assert IsLeftBy(job, env.atMs, job);
    }
  }

  lemma RefusalOfRequired(job: ImageJob, atMs: int, claimed: ImageJob)
    requires job.state.CompensationRequired? && Refusal(job, atMs).None?
    requires claimed.state.Compensating? && Refusal(claimed, atMs).None?
    ensures RefusalCode(job, atMs) == RefusalCode(claimed, atMs) == None
    ensures RemovesFiles(job, atMs) && RemovesFiles(claimed, atMs)
    ensures forall row: ImageJob :: IsLeftBy(claimed, atMs, row) ==> IsLeftBy(job, atMs, row)
  {
  }

  /** From a row that asks for compensation: claim, then the rest; or nothing. */
  lemma RequiredOutcome(w: World, i: nat, job: ImageJob, caller: Caller, env: Env) returns (n: nat, after: World)
    requires IsGood(w) && IsCurrent(w, i, ClaimingCompensation(job, caller), job)
    requires IsSound(job) && job.state.CompensationRequired? && IsPrompt(env, job)
    requires job.version + 2 <= MAX_SAFE_INTEGER
    ensures Drives(w, i, env, n, after) && IsOutcome(w, i, job, caller, env.atMs, after)
    ensures n == if Refusal(job, env.atMs).None? then 7 else 1
  {
    hide Next, Drives, IsSound, IsPrompt, IsGood, IsOutcome, Refusal;
    if Refusal(job, env.atMs).Some? {
      n, after := 1, Next(w, Proceed(i, env));
      UnclaimedOutcome(w, i, job, caller, env);
    } else {
      n := 7;
      after := ClaimableOutcome(w, i, job, caller, env);
    }
  }

  lemma UnclaimedOutcome(w: World, i: nat, job: ImageJob, caller: Caller, env: Env)
    requires IsCurrent(w, i, ClaimingCompensation(job, caller), job)
    requires IsSound(job) && job.state.CompensationRequired? && IsPrompt(env, job)
    requires Refusal(job, env.atMs).Some?
    ensures var after := Next(w, Proceed(i, env));
            Drives(w, i, env, 1, after) && IsOutcome(w, i, job, caller, env.atMs, after)
  {
    RequiredKeepsFiles(job, env.atMs);
    hide Next, Drives, IsSound, IsPrompt, Resume, WithRow, AllFilesOf, RefusalCode, RemovesFiles, Refusal;
    DriveStarts(w, i, env);
    DrivesOn(w, i, env, 0, w, env.file);
    NotClaimed(w, i, job, caller, env);
    SameRow(w.store, job);
    assert IsLeftBy(job, env.atMs, job);
  }

  lemma ClaimableOutcome(w: World, i: nat, job: ImageJob, caller: Caller, env: Env) returns (after: World)
    requires IsGood(w) && IsCurrent(w, i, ClaimingCompensation(job, caller), job)
    requires IsSound(job) && job.state.CompensationRequired? && IsPrompt(env, job)
    requires Refusal(job, env.atMs).None? && job.version + 2 <= MAX_SAFE_INTEGER
    ensures Drives(w, i, env, 7, after) && IsOutcome(w, i, job, caller, env.atMs, after)
  {
    hide Next, Drives, Agrees, IsSound, IsLease, WithRow, IsGood, RefusalCode, RemovesFiles, IsOutcome, Refusal;
    DriveStarts(w, i, env);
    var claimed := Claimed(w, i, job, caller, env);
    var w1 := Next(w, Proceed(i, env));
    DrivesOn(w, i, env, 0, w, env.file);
    DrivesStayGood(w, i, env, 1, w1);
    GoodAgrees(w1);
    IsRowOf(w.store, job.request.jobId, claimed);
    after := ClaimedOutcome(w1, i, claimed, caller, env);
    DrivesCompose(w, i, env, 1, w1, 6, after);
    RefusalOfRequired(job, env.atMs, claimed);
    LaterOutcome(w, i, job, CheckingSafety(claimed, caller), claimed, caller, env.atMs, after);
  }

  lemma RequiredKeepsFiles(job: ImageJob, atMs: int)
    requires job.state.CompensationRequired? && Refusal(job, atMs).Some?
    ensures !RemovesFiles(job, atMs)
  {
  }

  /** The end of a later stage is the end of the whole when both are refused, or not, alike. */
  lemma LaterOutcome(
    w: World, i: nat, job: ImageJob, a: Actor, later: ImageJob, caller: Caller, atMs: int, after: World)
    requires i < |w.actors| && later.request == job.request
    requires var mid := Moved(w, i, WithRow(w.store, job.request.jobId, later), w.files, a);
             IsOutcome(mid, i, later, caller, atMs, after)
    requires RefusalCode(job, atMs) == RefusalCode(later, atMs)
    requires RemovesFiles(job, atMs) == RemovesFiles(later, atMs)
    requires forall row: ImageJob :: IsLeftBy(later, atMs, row) ==> IsLeftBy(job, atMs, row)
    ensures IsOutcome(w, i, job, caller, atMs, after)
  {
    hide RefusalCode, RemovesFiles, IsLeftBy, Resume;
    var id, s := job.request.jobId, WithRow(w.store, job.request.jobId, later);
    var row: ImageJob :|
      row.request == later.request && after.store == WithRow(s, id, row) && IsLeftBy(later, atMs, row);
    LastRowCounts(w.store, job.request.jobId, later, row);
  }

  lemma FinalOutcome(w: World, i: nat, job: ImageJob, failure: string, caller: Caller, env: Env)
    requires IsCurrent(w, i, StartingCompensation(job, failure, caller), job)
    requires IsSound(job) && IsFinal(job.state) && IsPrompt(env, job)
    ensures var after := Next(w, Proceed(i, env));
            Drives(w, i, env, 1, after) && IsOutcome(w, i, job, caller, env.atMs, after)
  {
    hide Next, Drives, IsSound, IsLease, Resume, WithRow, AllFilesOf;
    DriveStarts(w, i, env);
    DrivesOn(w, i, env, 0, w, env.file);
    NotOpened(w, i, job, failure, caller, env);
    SameRow(w.store, job);
    assert IsLeftBy(job, env.atMs, job);
  }

  lemma OngoingOutcome(w: World, i: nat, job: ImageJob, failure: string, caller: Caller, env: Env)
    returns (n: nat, after: World)
    requires IsGood(w) && IsCurrent(w, i, StartingCompensation(job, failure, caller), job)
    requires IsSound(job) && IsPrompt(env, job) && job.version + 2 <= MAX_SAFE_INTEGER
    requires job.state.CompensationRequired? || job.state.Compensating?
    ensures Drives(w, i, env, n, after) && n <= 8 && IsOutcome(w, i, job, caller, env.atMs, after)
  {
    hide Next, Drives, Agrees, IsSound, IsGood, IsOutcome, IsPrompt, Refusal;
    CompensatingIsHeld(job);
    WentOn(w, i, job, failure, caller, env);
    var a := if job.state.CompensationRequired? then ClaimingCompensation(job, caller)
             else CheckingSafety(job, caller);
    var w1 := Moved(w, i, w.store, w.files, a);
    DriveStarts(w, i, env);
    DrivesOn(w, i, env, 0, w, env.file);
    assert Drives(w, i, env, 1, w1);
    DrivesStayGood(w, i, env, 1, w1);
    var m, end := UnderWayOutcome(w1, i, job, a, caller, env);
    n, after := 1 + m, end;
    DrivesCompose(w, i, env, 1, w1, m, after);
    SameOutcome(w, i, a, job, caller, env.atMs, after);
  }

  lemma CompensatingIsHeld(job: ImageJob)
    requires IsSound(job)
    ensures job.state.Compensating? ==> job.lease.Some?
  {
  }

  lemma UnderWayOutcome(w: World, i: nat, job: ImageJob, a: Actor, caller: Caller, env: Env)
    returns (n: nat, after: World)
    requires IsGood(w) && IsCurrent(w, i, a, job)
    requires IsSound(job) && IsPrompt(env, job) && job.version + 2 <= MAX_SAFE_INTEGER
    requires
      || (job.state.CompensationRequired? && a == ClaimingCompensation(job, caller))
      || (job.state.Compensating? && a == CheckingSafety(job, caller))
    ensures Drives(w, i, env, n, after) && n <= 7 && IsOutcome(w, i, job, caller, env.atMs, after)
  {
    hide Next, Drives, Agrees, IsSound, IsGood, IsOutcome, IsPrompt, Refusal;
    GoodAgrees(w);
    if job.state.CompensationRequired? {
      n, after := RequiredOutcome(w, i, job, caller, env);
    } else {
      n := 6;
      after := ClaimedOutcome(w, i, job, caller, env);
    }
  }

  lemma SameOutcome(w: World, i: nat, a: Actor, job: ImageJob, caller: Caller, atMs: int, after: World)
    requires i < |w.actors| && IsOutcome(Moved(w, i, w.store, w.files, a), i, job, caller, atMs, after)
    ensures IsOutcome(w, i, job, caller, atMs, after)
  {
    hide RefusalCode, RemovesFiles, IsLeftBy, Resume, WithRow, AllFilesOf;
  }

  lemma OpenedOutcome(w: World, i: nat, job: ImageJob, failure: string, caller: Caller, env: Env)
    returns (n: nat, after: World)
    requires IsGood(w) && IsCurrent(w, i, StartingCompensation(job, failure, caller), job)
    requires IsSound(job) && IsPrompt(env, job) && job.version + 3 <= MAX_SAFE_INTEGER
    requires !IsFinal(job.state) && !job.state.CompensationRequired? && !job.state.Compensating?
    ensures Drives(w, i, env, n, after) && n <= 8 && IsOutcome(w, i, job, caller, env.atMs, after)
  {
    hide Next, Drives, IsSound, WithRow, IsGood, RefusalCode, RemovesFiles, Refusal, IsLeftBy, IsLease, IsOutcome;
    DriveStarts(w, i, env);
    DrivesOn(w, i, env, 0, w, env.file);
    var required := Opened(w, i, job, failure, caller, env);
    var w1 := Next(w, Proceed(i, env));
    DrivesStayGood(w, i, env, 1, w1);
    IsRowOf(w.store, job.request.jobId, required);
    var m, end := RequiredOutcome(w1, i, required, caller, env);
    n, after := 1 + m, end;
    DrivesCompose(w, i, env, 1, w1, m, after);
    OpenedIsAlike(job, env.atMs, required);
    LaterOutcome(w, i, job, ClaimingCompensation(required, caller), required, caller, env.atMs, after);
  }

  /** Opening a compensation asks for it at once and leaves the attempts as they were. */
  lemma OpenedIsAlike(job: ImageJob, atMs: int, required: ImageJob)
    requires !IsFinal(job.state) && !job.state.CompensationRequired? && !job.state.Compensating?
    requires required.state.CompensationRequired? && required.nextAttemptAtMs == Some(atMs)
    requires required.request == job.request
    requires required.compensationAttemptCount == job.compensationAttemptCount
    requires required.version == job.version + 1 && required.updatedAtMs == atMs
    ensures RefusalCode(job, atMs) == RefusalCode(required, atMs)
    ensures RemovesFiles(job, atMs) == RemovesFiles(required, atMs)
    ensures forall row: ImageJob :: IsLeftBy(required, atMs, row) ==> IsLeftBy(job, atMs, row)
  {
  }

  /**
   The exact end of #compensatePublishedJob when its row is the current one and its calls all work: which
   rows it compensates, which files it removes, and which code it throws otherwise.
   */
  lemma CompensationOutcome(w: World, i: nat, job: ImageJob, failure: string, caller: Caller, env: Env)
    returns (n: nat, after: World)
    requires IsGood(w) && IsCurrent(w, i, StartingCompensation(job, failure, caller), job)
    requires IsPrompt(env, job) && job.version + 3 <= MAX_SAFE_INTEGER
    ensures Drives(w, i, env, n, after) && n <= 8
    ensures IsOutcome(w, i, job, caller, env.atMs, after)
  {
    GoodAgrees(w);
    RowsAreSound(w.store, job.request.jobId);
    hide Next, Drives, Agrees, IsSound, IsPrompt, IsOutcome, IsGood;
    if IsFinal(job.state) {
      n, after := 1, Next(w, Proceed(i, env));
      FinalOutcome(w, i, job, failure, caller, env);
    } else if job.state.CompensationRequired? || job.state.Compensating? {
      n, after := OngoingOutcome(w, i, job, failure, caller, env);
    } else {
      n, after := OpenedOutcome(w, i, job, failure, caller, env);
    }
  }
}
