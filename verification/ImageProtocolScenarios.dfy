/**
 Runs from the empty world that show which surprises of the protocol are real, for every creatable request:
 a compensated job with its public file, an expired compensation that is refused, and a compensation that
 has no attempt left.
 */
module ImageProtocolScenarios {
  import opened Outcomes
  import opened ImageJobPolicy
  import opened ImageJobEffects
  import opened ImageJobRecovery
  import opened ImageStores
  import opened ImageStoreAgreement
  import opened ImageProtocol
  import opened ImageProtocolSafety
  import opened ImageProtocolRuns
  import opened ImageProtocolDrives
  import opened ImageProtocolProgress
  import opened ImageProtocolCompensation
  import opened ImageProtocolRecovery
  import opened ImageProtocolStarvation
  import opened ImageProtocolStuckRow

  /** The default of the service. */
  const JOB_LEASE_MS := 120_000

  /** The n-th lease token of a run. */
  function TokenNo(n: nat): string {
    seq(32, k => if k < n then '1' else '0')
  }

  /** All calls work at `atMs`; the n-th token. */
  function Working(atMs: int, n: nat): Env {
    Env(true, false, true, "", atMs, JOB_LEASE_MS, TokenNo(n), 640, 480, InputFile(""), Capacity(50, 1000))
  }

  /** Calls fail at `atMs`. */
  function Failing(atMs: int): Env {
    Working(atMs, 0).(works := false)
  }

  /** A request that may be created at `atMs` under a managed path, early enough for the runs below. */
  predicate IsUsable(input: NewImageJob, atMs: int) {
    && CreateImageJob(input, atMs).Ok? && IsManagedImagePath(input.outputStorageKey)
    && atMs + 30 * JOB_LEASE_MS <= MAX_SAFE_INTEGER
  }

  /** `input` is the only job of the store. */
  predicate IsAlone(s: Store, input: NewImageJob) {
    && s.jobs.Keys == {input.jobId}
    && s.jobIdByRequest.Keys == {input.requestKey}
    && s.jobIdByOutput.Keys == {input.outputStorageKey}
  }

  lemma StaysAlone(s: Store, input: NewImageJob, row: ImageJob)
    requires IsAlone(s, input)
    ensures IsAlone(WithRow(s, input.jobId, row), input)
  {
  }

  lemma ReservesAlone(input: NewImageJob, atMs: int, row: ImageJob)
    ensures IsAlone(WithRow(WithReservation(EmptyStore, InitialJob(input, atMs)), input.jobId, row), input)
  {
  }

  /** From the n-th on, all calls have come to their end. */
  predicate AreDone(actors: seq<Actor>, n: nat) {
    forall i | n <= i < |actors| :: actors[i] == Done(None)
  }

  /** The upload of `input` stands before its rename and holds its row until its lease runs out. */
  predicate IsStalled(w: World, input: NewImageJob, atMs: int, job: ImageJob) {
    && IsHeld(job, input, Publishing, atMs, Working(atMs, 0)) && job.version == 4
    && Lookup(w.store.jobs, input.jobId) == Some(job)
    && w.files == {InputOf(job), TempOf(job)} && w.strays == {}
    && w.actors == [Renaming(job)] && IsAlone(w.store, input)
  }

  lemma WorkingIsSmooth(atMs: int, n: nat)
    requires 0 <= atMs && atMs + JOB_LEASE_MS <= MAX_SAFE_INTEGER
    ensures IsSmooth(Working(atMs, n), atMs)
    ensures forall job: ImageJob :: job.updatedAtMs <= atMs ==> IsPrompt(Working(atMs, n), job)
  {
  }

  lemma UploadStalls(input: NewImageJob, atMs: int) returns (w: World, job: ImageJob)
    requires IsUsable(input, atMs)
    ensures IsReached(w) && IsStalled(w, input, atMs, job)
  {
    hide IsManagedImagePath, IsHeld, IsSmooth, IsPrompt, Drives, IsReached, Next;
    var env := Working(atMs, 0);
    assert 0 <= atMs by { hide IsValid; }
    WorkingIsSmooth(atMs, 0);
    EmptyIsReached();
    var started := StartUpload(input, atMs);
    assert IsLegal(EmptyWorld, started);
    ReachedOn(EmptyWorld, started);
    job := UploadReachesRename(EmptyWorld, input, atMs, env);
    w := AtRename(EmptyWorld, input, atMs, job);
    ReachedThrough(Next(EmptyWorld, started), 0, env, 6, w);
    RevealHeld(job, input, Publishing, atMs, env);
    ReservesAlone(input, atMs, job);
  }

  // ---------------------------------------------------------------------------------------------
  // A recovery overtakes the stalled upload
  // ---------------------------------------------------------------------------------------------

  /** The row in its k-th compensation, claimed at `atMs`. */
  predicate IsClaimed(row: ImageJob, input: NewImageJob, atMs: int, k: nat) {
    && IsSound(row) && row.request == input && row.state.Compensating?
    && row.compensationAttemptCount == k && row.updatedAtMs == atMs && row.version == 4 + 2 * k
    && row.lease == Some(Lease("web-compensation-1", TokenNo(k), atMs, atMs + JOB_LEASE_MS))
  }

  /** The moment at which the upload's lease has run out. */
  function Expiry(atMs: int): int {
    atMs + JOB_LEASE_MS
  }

  lemma HeldIsPublishing(job: ImageJob, input: NewImageJob, atMs: int)
    requires IsHeld(job, input, Publishing, atMs, Working(atMs, 0))
    ensures IsSound(job) && job.request == input && job.state.Publishing? && job.updatedAtMs == atMs
    ensures job.compensationAttemptCount == 0 && HasCompensationAttemptsLeft(job)
    ensures !HasLiveLease(job, Expiry(atMs)) && NeedsRecovery(job, Expiry(atMs))
  {
    hide IsRequest, IsErrorCode, IsLease, TokenNo;
  }

  /** Decide, require. */
  lemma OvertakingRequires(w: World, i: nat, job: ImageJob, input: NewImageJob, atMs: int, e: Evidence)
    returns (required: ImageJob)
    requires IsUsable(input, atMs) && IsHeld(job, input, Publishing, atMs, Working(atMs, 0)) && job.version == 4
    requires IsCurrent(w, i, Acting(job, Expiry(atMs), e), job)
    requires PlanRestart(job, e, Expiry(atMs)) == Ok(DoRequireCompensation)
    ensures Drives(
              w, i, Working(Expiry(atMs), 1), 2,
              Moved(
                w, i, WithRow(w.store, input.jobId, required), w.files,
                ClaimingCompensation(required, RecoveryLoop(job))))
    ensures IsSound(required) && required.request == input && required.state.CompensationRequired?
    ensures required.updatedAtMs == Expiry(atMs) && required.nextAttemptAtMs == Some(Expiry(atMs))
    ensures required.version == 5 && required.compensationAttemptCount == 0
  {
    hide PlanRestart, Drives, Next, IsHeld, IsSound, IsUsable, HasLiveLease, NeedsRecovery, TokenNo;
    HeldIsPublishing(job, input, atMs);
    UsableIsEpoch(input, atMs);
    var env, caller := Working(Expiry(atMs), 1), RecoveryLoop(job);
    DriveStarts(w, i, env);
    Acted(w, i, job, Expiry(atMs), e, env, DoRequireCompensation);
    DrivesOn(w, i, env, 0, w, env.file);
    var start := StartingCompensation(job, "", caller);
    var w1 := Moved(w, i, w.store, w.files, start);
    required := Opened(w1, i, job, "", caller, env);
    DrivesOn(w, i, env, 1, w1, env.file);
    LastMoveCounts(
      w, i, w.store, w.files, start,
      WithRow(w.store, input.jobId, required), w.files, ClaimingCompensation(required, caller));
  }

  /** Decide, require, claim. */
  lemma Overtakes(w: World, i: nat, job: ImageJob, input: NewImageJob, atMs: int, e: Evidence)
    returns (claimed: ImageJob)
    requires IsUsable(input, atMs) && IsHeld(job, input, Publishing, atMs, Working(atMs, 0)) && job.version == 4
    requires IsCurrent(w, i, Acting(job, Expiry(atMs), e), job)
    requires PlanRestart(job, e, Expiry(atMs)) == Ok(DoRequireCompensation)
    ensures Drives(
              w, i, Working(Expiry(atMs), 1), 3,
              Moved(w, i, WithRow(w.store, input.jobId, claimed), w.files, CheckingSafety(claimed, RecoveryLoop(job))))
    ensures IsClaimed(claimed, input, Expiry(atMs), 1)
  {
    hide PlanRestart, Drives, Next, IsHeld, IsSound, IsUsable, TokenNo, IsLease, Effect;
    UsableIsEpoch(input, atMs);
    var env, caller := Working(Expiry(atMs), 1), RecoveryLoop(job);
    WorkingIsSmooth(Expiry(atMs), 1);
    var required := OvertakingRequires(w, i, job, input, atMs, e);
    IsRowOf(w.store, input.jobId, required);
    var claiming := ClaimingCompensation(required, caller);
    var mid := Moved(w, i, WithRow(w.store, input.jobId, required), w.files, claiming);
    assert HasCompensationAttemptsLeft(required) by { RequestHasAttempts(required); }
    claimed := ImageProtocolCompensation.Claimed(mid, i, required, caller, env);
    DrivesOn(w, i, env, 2, mid, env.file);
    LastRowCounts(w.store, input.jobId, required, claimed);
    LastMoveCounts(
      w, i, WithRow(w.store, input.jobId, required), w.files, claiming,
      WithRow(w.store, input.jobId, claimed), w.files, CheckingSafety(claimed, caller));
  }

  lemma RequestHasAttempts(job: ImageJob)
    requires IsSound(job)
    ensures 1 <= job.request.maxCompensationAttempts <= 20
  {
    hide IsStorageKey, IsHexText, IsErrorCode, IsLease;
  }

  lemma UsableIsEpoch(input: NewImageJob, atMs: int)
    requires IsUsable(input, atMs)
    ensures 0 <= atMs && atMs + 30 * JOB_LEASE_MS <= MAX_SAFE_INTEGER
  {
    hide IsValid, IsManagedImagePath;
  }

  /** The recovery asks for compensation unless it sees the public file gone. */
  lemma OvertakingIsPlanned(w: World, job: ImageJob, input: NewImageJob, atMs: int, env: Env)
    requires IsUsable(input, atMs) && IsHeld(job, input, Publishing, atMs, Working(atMs, 0))
    requires Lookup(w.store.jobs, input.jobId) == Some(job)
    requires env.works ==> FinalOf(job) in w.files
    ensures PlanRestart(job, EvidenceOf(w, job, env), Expiry(atMs)) == Ok(DoRequireCompensation)
  {
    hide IsManagedImagePath, CreateImageJob, IsRequest, IsErrorCode, IsLease, TokenNo;
    UsableIsEpoch(input, atMs);
    HeldIsPublishing(job, input, atMs);
    assert !IsAttachableJob(job) by { NotAttachable(job); }
    hide IsAttachableJob;
  }

  /** A recovery, whose looks fare as `env` says, brings the expired publication into compensation. */
  lemma RecoveryOvertakes(w: World, job: ImageJob, input: NewImageJob, atMs: int, env: Env)
    returns (claimed: ImageJob, after: World)
    requires IsReached(w) && Lookup(w.store.jobs, input.jobId) == Some(job)
    requires IsUsable(input, atMs) && IsHeld(job, input, Publishing, atMs, Working(atMs, 0)) && job.version == 4
    requires env.works ==> FinalOf(job) in w.files
    ensures after == WithRecovery(
                       w, WithRow(w.store, input.jobId, claimed), w.files,
                       CheckingSafety(claimed, RecoveryLoop(job)))
    ensures IsReached(after) && IsClaimed(claimed, input, Expiry(atMs), 1)
  {
    hide PlanRestart, Drives, Next, IsHeld, IsSound, IsUsable, IsReached, NeedsRecovery, EvidenceOf, IsClaimed;
    hide WithRow;
    HeldIsPublishing(job, input, atMs);
    var i, now := |w.actors|, Expiry(atMs);
    RecoveryStarts(w, job, now);
    ReachedOn(w, StartRecovery(input.jobId, now));
    var looking := ObservingFinal(job, now);
    var w0 := WithRecovery(w, w.store, w.files, looking);
    EvidenceSeen(w0, i, job, now, env);
    var e := EvidenceOf(w0, job, env);
    SameEvidence(w, w0, job, env);
    OvertakingIsPlanned(w, job, input, atMs, env);
    RecoveryMoves(w, w.store, w.files, looking, w.store, w.files, Acting(job, now, e));
    var w1 := WithRecovery(w, w.store, w.files, Acting(job, now, e));
    ReachedThrough(w0, i, env, 4, w1);
    claimed := Overtakes(w1, i, job, input, atMs, e);
    after := WithRecovery(
      w, WithRow(w.store, input.jobId, claimed), w.files, CheckingSafety(claimed, RecoveryLoop(job)));
    RecoveryMoves(
      w, w.store, w.files, Acting(job, now, e),
      WithRow(w.store, input.jobId, claimed), w.files, CheckingSafety(claimed, RecoveryLoop(job)));
    ReachedThrough(w1, i, Working(now, 1), 3, after);
  }

  // ---------------------------------------------------------------------------------------------
  // A compensated job with its public file
  // ---------------------------------------------------------------------------------------------

  predicate IsCompensated(w: World, jobId: string) {
    jobId in w.store.jobs && w.store.jobs[jobId].state.Compensated?
  }

  /** While the recovery removes the three files, the stalled upload renames between two of its removals. */
  lemma RenameDuringRemoval(w: World, job: ImageJob, row: ImageJob, caller: Caller, env: Env) returns (after: World)
    requires IsReached(w) && |w.actors| == 2 && w.actors[0] == Renaming(job)
    requires IsCurrent(w, 1, CheckingSafety(row, caller), row) && row.request == job.request
    requires row.state.Compensating? && TempOf(job) in w.files && env.works && !env.replyLost
    ensures IsReached(after)
    ensures after == World(
                       w.store, w.files - AllFilesOf(job) + {FinalOf(job)}, w.strays,
                       [MarkingReady(job), Completing(row, caller)])
  {
    hide Drives, Next, IsReached, IsGood, Agrees;
    var final, temp, input := FinalOf(row), TempOf(row), InputOf(row);
    ReachedIsGood(w);
    GoodAgrees(w);
    FoundSafe(w, 1, row, caller, env);
    var w1 := Moved(w, 1, w.store, w.files, Unlinking(row, caller, AllFilesOf(row)));
    ReachedMoves(w, 1, env, w1);
    Unlinked(w1, 1, row, caller, AllFilesOf(row), env.(file := final));
    assert AllFilesOf(row) - {final} == {temp, input};
    var w2 := Moved(w1, 1, w.store, w.files - {final}, Unlinking(row, caller, {temp, input}));
    ReachedMoves(w1, 1, env.(file := final), w2);
    after := RenameAfterFinal(w2, job, row, caller, env);
    assert w2.files - {temp} + {final} - {input} == w.files - AllFilesOf(job) + {FinalOf(job)};
  }

  lemma RenameAfterFinal(w: World, job: ImageJob, row: ImageJob, caller: Caller, env: Env) returns (after: World)
    requires IsReached(w) && |w.actors| == 2 && w.actors[0] == Renaming(job)
    requires w.actors[1] == Unlinking(row, caller, {TempOf(row), InputOf(row)}) && row.request == job.request
    requires TempOf(job) in w.files && env.works && !env.replyLost
    ensures IsReached(after)
    ensures after == World(
                       w.store, w.files - {TempOf(job)} + {FinalOf(job)} - {InputOf(job)}, w.strays,
                       [MarkingReady(job), Completing(row, caller)])
  {
    hide Next, IsReached;
    var final, temp, input := FinalOf(row), TempOf(row), InputOf(row);
    Renamed(w, 0, job, env);
    var published := w.files - {temp} + {final};
    var w1 := World(w.store, published, w.strays, [MarkingReady(job), w.actors[1]]);
    assert w1 == Moved(w, 0, w.store, published, MarkingReady(job));
    ReachedMoves(w, 0, env, w1);
    Unlinked(w1, 1, row, caller, {temp, input}, env.(file := temp));
    assert {temp, input} - {temp} == {input} && published - {temp} == published;
    var w2 := Moved(w1, 1, w.store, published, Unlinking(row, caller, {input}));
    ReachedMoves(w1, 1, env.(file := temp), w2);
    Unlinked(w2, 1, row, caller, {input}, env.(file := input));
    assert {input} - {input} == {};
    var w3 := Moved(w2, 1, w.store, published - {input}, Unlinking(row, caller, {}));
    ReachedMoves(w2, 1, env.(file := input), w3);
    AllUnlinked(w3, 1, row, caller, env);
    after := Moved(w3, 1, w.store, published - {input}, Completing(row, caller));
    ReachedMoves(w3, 1, env, after);
  }

  /**
   `compensated` does not mean that the public file is gone. Every usable request has a run in which an
   upload stalls before its rename until its lease has run out, a recovery compensates the row, and the
   rename comes between the removals of the public and the temporary file.
   */
  lemma CompensatedWithFinal(input: NewImageJob, atMs: int) returns (es: seq<Event>)
    requires IsUsable(input, atMs)
    ensures IsLegalRun(EmptyWorld, es)
    ensures var w := RunAll(EmptyWorld, es);
            IsCompensated(w, input.jobId) && FinalFile(input.outputStorageKey) in w.files
  {
    hide Next, IsReached, IsHeld, IsSound, IsGood, Agrees, TokenNo, IsUsable, RunAll, IsLegalRun;
    var now := Expiry(atMs);
    UsableIsEpoch(input, atMs);
    var stalled, job := UploadStalls(input, atMs);
    HeldIsPublishing(job, input, atMs);
    var row, w := RecoveryOvertakes(stalled, job, input, atMs, Failing(now));
    IsRowOf(stalled.store, input.jobId, row);
    var caller := RecoveryLoop(job);
    var mid := RenameDuringRemoval(w, job, row, caller, Working(now, 1));
    ReachedIsGood(mid);
    GoodAgrees(mid);
    var done := ImageProtocolCompensation.Completed(mid, 1, row, caller, Working(now, 1));
    var after := Next(mid, Proceed(1, Working(now, 1)));
    ReachedMoves(mid, 1, Working(now, 1), after);
    es := RunOf(after);
  }

  lemma RunOf(w: World) returns (es: seq<Event>)
    requires IsReached(w)
    ensures IsLegalRun(EmptyWorld, es) && RunAll(EmptyWorld, es) == w
  {
    hide RunAll, IsLegalRun;
    var run: seq<Event> :| IsLegalRun(EmptyWorld, run) && RunAll(EmptyWorld, run) == w;
    es := run;
  }

  // ---------------------------------------------------------------------------------------------
  // An expired compensation
  // ---------------------------------------------------------------------------------------------

  /** The upload has renamed and crashed, the recovery that overtook it has claimed the row and crashed. */
  lemma CompensationCrashes(input: NewImageJob, atMs: int) returns (w: World, row: ImageJob)
    requires IsUsable(input, atMs)
    ensures IsReached(w) && Lookup(w.store.jobs, input.jobId) == Some(row)
    ensures IsClaimed(row, input, Expiry(atMs), 1)
    ensures w.files == {FinalOf(row), InputOf(row)} && w.actors == [Crashed, Crashed]
  {
    hide Next, IsReached, IsHeld, IsSound, TokenNo, IsUsable, Drives;
    var env := Working(atMs, 0);
    var stalled, job := UploadStalls(input, atMs);
    HeldIsPublishing(job, input, atMs);
    Renamed(stalled, 0, job, env);
    var renamed := Moved(stalled, 0, stalled.store, {FinalOf(job), InputOf(job)}, MarkingReady(job));
    assert stalled.files - {TempOf(job)} + {FinalOf(job)} == {FinalOf(job), InputOf(job)};
    ReachedMoves(stalled, 0, env, renamed);
    var alone := CrashOf(renamed, 0);
    var claimed, held := RecoveryOvertakes(alone, job, input, atMs, Working(Expiry(atMs), 1));
    row := claimed;
    IsRowOf(alone.store, input.jobId, row);
    w := CrashOf(held, 1);
  }

  lemma CrashOf(w: World, i: nat) returns (after: World)
    requires IsReached(w) && i < |w.actors| && !w.actors[i].Unlinking? && !w.actors[i].UnlinkingRecovery?
    ensures IsReached(after)
    ensures after == World(w.store, w.files, w.strays, w.actors[i := Crashed])
  {
    hide IsReached;
    ReachedOn(w, Crash(i));
    after := Next(w, Crash(i));
    assert w.strays + InFlight(w.actors[i]) == w.strays;
  }

  /**
   A compensation whose lease has run out while its public file is there takes two recoveries, for every
   usable request with two attempts: in the first every call works, the files go, and the completion is
   refused with STALE_LEASE; the second one completes.
   */
  lemma ExpiredCompensationTakesTwo(input: NewImageJob, atMs: int)
    returns (es: seq<Event>, n: nat, mid: World, m: nat, after: World)
    requires IsUsable(input, atMs) && 2 <= input.maxCompensationAttempts
    ensures IsLegalRun(EmptyWorld, es)
    ensures var w, now := RunAll(EmptyWorld, es), atMs + 2 * JOB_LEASE_MS;
            var env := Working(now, 2);
            && input.jobId in w.store.jobs && w.store.jobs[input.jobId].state.Compensating?
            && FinalFile(input.outputStorageKey) in w.files
            && Drives(Next(w, StartRecovery(input.jobId, now)), |w.actors|, env, n, mid)
            && mid == WithRecovery(w, w.store, {}, Done(None))
            && Drives(Next(mid, StartRecovery(input.jobId, now)), |mid.actors|, env, m, after)
            && IsCompensated(after, input.jobId)
  {
    hide Next, IsReached, IsSound, IsGood, TokenNo, IsUsable, RunAll, IsLegalRun, Drives, IsPrompt;
    var now := atMs + 2 * JOB_LEASE_MS;
    UsableIsEpoch(input, atMs);
    var w, row := CompensationCrashes(input, atMs);
    ReachedIsGood(w);
    WorkingIsSmooth(now, 2);
    var env := Working(now, 2);
    var a, b, c, d := SecondRecoveryCompletes(w, row, env, env);
    n, mid, m, after := a, b, c, d;
    assert w.files - AllFilesOf(row) == {};
    es := RunOf(w);
  }

  // ---------------------------------------------------------------------------------------------
  // A compensation without attempts
  // ---------------------------------------------------------------------------------------------

  /** The upload still stands before its rename; the last recovery has claimed the row for the k-th time. */
  predicate IsRetrying(w: World, input: NewImageJob, job: ImageJob, row: ImageJob, atMs: int, k: nat) {
    && job.request == input && job.state.Publishing? && job.version == 4
    && TempOf(job) in w.files
    && 2 <= |w.actors| && w.actors[0] == Renaming(job)
    && w.actors[|w.actors| - 1].CheckingSafety? && w.actors[|w.actors| - 1].caller.RecoveryLoop?
    && IsCurrent(w, |w.actors| - 1, w.actors[|w.actors| - 1], row)
    && w.actors[|w.actors| - 1].job == row
    && IsClaimed(row, input, atMs, k)
    && IsAlone(w.store, input) && AreDone(w.actors[..|w.actors| - 1], 1)
  }

  lemma FailureAccepted(row: ImageJob, input: NewImageJob, atMs: int, k: nat) returns (next: ImageJob)
    requires IsClaimed(row, input, atMs, k) && 0 <= atMs && atMs + JOB_LEASE_MS <= MAX_SAFE_INTEGER
    requires row.version < MAX_SAFE_INTEGER
    ensures var a := RecordCompensationFailure(TokenOf(row), SafeCode(""), atMs + JOB_LEASE_MS);
            Transition(row, Command(row.version, atMs, a)) == Ok(next)
    ensures IsSound(next) && next.request == input && next.version == row.version + 1
    ensures next.updatedAtMs == atMs && next.compensationAttemptCount == k
    ensures if k < input.maxCompensationAttempts
            then next.state.CompensationRequired? && next.nextAttemptAtMs == Some(atMs + JOB_LEASE_MS)
            else next.state.ManualReview?
  {
    SafeCodeIsCode("");
    hide IsRequest, IsErrorCode, IsLeaseOwner, IsHexText, SafeCode, TokenNo;
    next := AcceptedNext(
      row,
      Command(row.version, atMs, RecordCompensationFailure(TokenOf(row), SafeCode(""), atMs + JOB_LEASE_MS)));
  }

  /** The safety check fails, and the failure is recorded. */
  lemma CompensationFails(w: World, input: NewImageJob, job: ImageJob, row: ImageJob, atMs: int, k: nat)
    returns (next: ImageJob, after: World)
    requires IsReached(w) && IsRetrying(w, input, job, row, atMs, k)
    requires 0 <= atMs && atMs + JOB_LEASE_MS <= MAX_SAFE_INTEGER && row.version < MAX_SAFE_INTEGER
    ensures IsReached(after)
    ensures after == Moved(w, |w.actors| - 1, WithRow(w.store, input.jobId, next), w.files, Done(None))
    ensures IsAlone(after.store, input) && AreDone(after.actors, 1)
    ensures IsSound(next) && next.request == input && next.version == row.version + 1
    ensures next.updatedAtMs == atMs && next.compensationAttemptCount == k
    ensures if k < input.maxCompensationAttempts
            then next.state.CompensationRequired? && next.nextAttemptAtMs == Some(atMs + JOB_LEASE_MS)
            else next.state.ManualReview?
  {
    hide Next, IsReached, IsSound, Transition, CallTransition, TokenNo, SafeCode;
    var i := |w.actors| - 1;
    var caller := w.actors[i].caller;
    CompensateSeen(w, i, Failing(atMs));
    var recording := RecordingUnsafe(row, "", caller);
    var mid := Moved(w, i, w.store, w.files, recording);
    ReachedMoves(w, i, Failing(atMs), mid);
    next := FailureAccepted(row, input, atMs, k);
    var env := Working(atMs, 0);
    Commanded(
      mid.store, row, atMs, RecordCompensationFailure(TokenOf(row), SafeCode(""), atMs + JOB_LEASE_MS), env, next);
    CompensateSeen(mid, i, env);
    after := Next(mid, Proceed(i, env));
    ReachedMoves(mid, i, env, after);
    assert Resume(caller, Some("")) == Done(None);
    LastMoveCounts(
      w, i, w.store, w.files, recording, WithRow(w.store, input.jobId, next), w.files, Done(None));
    StaysAlone(w.store, input, next);
    AllDone(w.actors, i);
  }

  lemma AllDone(actors: seq<Actor>, i: nat)
    requires i < |actors| && i == |actors| - 1 && 1 <= i && AreDone(actors[..i], 1)
    ensures AreDone(actors[i := Done(None)], 1)
  {
    assert forall k | 1 <= k < i :: actors[k] == actors[..i][k];
  }

  /** The row that a failed attempt leaves while there are attempts left. */
  predicate IsRetryable(row: ImageJob, input: NewImageJob, atMs: int, k: nat) {
    && IsSound(row) && row.request == input && row.state.CompensationRequired?
    && row.updatedAtMs == atMs && row.nextAttemptAtMs == Some(atMs + JOB_LEASE_MS)
    && row.version == 5 + 2 * k && row.compensationAttemptCount == k && k < input.maxCompensationAttempts
  }

  lemma RetryableIsRecoverable(row: ImageJob, input: NewImageJob, atMs: int, k: nat, n: nat)
    requires IsRetryable(row, input, atMs, k)
    requires 0 <= atMs && atMs + 2 * JOB_LEASE_MS <= MAX_SAFE_INTEGER
    ensures var env := Working(atMs + JOB_LEASE_MS, n);
            && IsPrompt(env, row) && IsRecoverable(row, env.atMs) && Refusal(row, env.atMs).None?
    ensures CompensationPlan(row, true) == CompensationPlan(row, false) == DoClaimCompensation
    ensures row.version < 50
  {
    WorkingIsSmooth(atMs + JOB_LEASE_MS, n);
    RequestHasAttempts(row);
    hide IsSound, IsPrompt, TokenNo, IsSmooth;
  }

  /** Look, decide: the next recovery starts to compensate. */
  lemma RetryStarts(w: World, row: ImageJob, input: NewImageJob, atMs: int, k: nat) returns (after: World)
    requires IsReached(w) && Lookup(w.store.jobs, input.jobId) == Some(row) && IsRetryable(row, input, atMs, k)
    requires 0 <= atMs && atMs + 2 * JOB_LEASE_MS <= MAX_SAFE_INTEGER
    ensures IsReached(after)
    ensures after == WithRecovery(w, w.store, w.files, ClaimingCompensation(row, RecoveryLoop(row)))
  {
    hide Next, IsReached, IsSound, TokenNo, Drives, IsGood, Agrees, IsPrompt, IsRecoverable, EvidenceOf;
    hide PlanRestart, Refusal, CompensationPlan;
    var now, i := atMs + JOB_LEASE_MS, |w.actors|;
    var env, caller := Working(now, k + 1), RecoveryLoop(row);
    RetryableIsRecoverable(row, input, atMs, k, k + 1);
    ReachedIsGood(w);
    GoodAgrees(w);
    var mid := RecoveryDecides(w, row, env);
    ReachedOn(w, StartRecovery(input.jobId, now));
    ReachedThrough(Next(w, StartRecovery(input.jobId, now)), i, env, 4, mid);
    var acting, starting := mid.actors[i], StartingCompensation(row, "", caller);
    Acted(mid, i, row, now, EvidenceOf(mid, row, env), env, DoClaimCompensation);
    RecoveryMoves(w, w.store, w.files, acting, w.store, w.files, starting);
    var w1 := WithRecovery(w, w.store, w.files, starting);
    ReachedMoves(mid, i, env, w1);
    WentOn(w1, i, row, "", caller, env);
    RecoveryMoves(w, w.store, w.files, starting, w.store, w.files, ClaimingCompensation(row, caller));
    after := WithRecovery(w, w.store, w.files, ClaimingCompensation(row, caller));
    ReachedMoves(w1, i, env, after);
  }

  lemma RetryClaims(w: World, input: NewImageJob, job: ImageJob, row: ImageJob, atMs: int, k: nat)
    returns (claimed: ImageJob, after: World)
    requires IsReached(w) && Lookup(w.store.jobs, input.jobId) == Some(row) && IsRetryable(row, input, atMs, k)
    requires 0 <= atMs && atMs + 2 * JOB_LEASE_MS <= MAX_SAFE_INTEGER
    requires job.request == input && job.state.Publishing? && job.version == 4
    requires TempOf(job) in w.files && |w.actors| > 0 && w.actors[0] == Renaming(job)
    requires IsAlone(w.store, input) && AreDone(w.actors, 1)
    ensures IsReached(after) && IsRetrying(after, input, job, claimed, atMs + JOB_LEASE_MS, k + 1)
  {
    hide Next, IsReached, IsSound, TokenNo, IsPrompt, IsRecoverable, Refusal, WithRow;
    var now, i, caller := atMs + JOB_LEASE_MS, |w.actors|, RecoveryLoop(row);
    var env := Working(now, k + 1);
    RetryableIsRecoverable(row, input, atMs, k, k + 1);
    var mid := RetryStarts(w, row, input, atMs, k);
    claimed := ImageProtocolCompensation.Claimed(mid, i, row, caller, env);
    RecoveryMoves(
      w, w.store, w.files, ClaimingCompensation(row, caller),
      WithRow(w.store, input.jobId, claimed), w.files, CheckingSafety(claimed, caller));
    IsRowOf(w.store, input.jobId, claimed);
    StaysAlone(w.store, input, claimed);
    after := WithRecovery(w, WithRow(w.store, input.jobId, claimed), w.files, CheckingSafety(claimed, caller));
    assert after.actors[..i] == w.actors;
    ReachedMoves(mid, i, env, after);
  }

  /** Recovery after recovery fails its safety check, until the row is left for review. */
  lemma {:induction false} AttemptsRunOut(
    w: World, input: NewImageJob, job: ImageJob, row: ImageJob, atMs: int, k: nat)
    returns (review: ImageJob, after: World)
    requires IsReached(w) && IsRetrying(w, input, job, row, atMs, k) && k <= input.maxCompensationAttempts <= 20
    requires 0 <= atMs && atMs + (22 - k) * JOB_LEASE_MS <= MAX_SAFE_INTEGER
    ensures IsReached(after) && Lookup(after.store.jobs, input.jobId) == Some(review)
    ensures |after.actors| > 0 && after.actors[0] == Renaming(job) && TempOf(job) in after.files
    ensures IsSound(review) && review.request == input && review.state.ManualReview?
    ensures !HasCompensationAttemptsLeft(review) && 4 < review.version <= 45
    ensures 0 <= review.updatedAtMs <= atMs + (20 - k) * JOB_LEASE_MS
    ensures IsAlone(after.store, input) && AreDone(after.actors, 1)
    decreases input.maxCompensationAttempts - k
  {
    hide IsReached, IsSound, TokenNo, WithRow;
    var next, failed := CompensationFails(w, input, job, row, atMs, k);
    IsRowOf(w.store, input.jobId, next);
    if k < input.maxCompensationAttempts {
      var claimed, retried := RetryClaims(failed, input, job, next, atMs, k);
      review, after := AttemptsRunOut(retried, input, job, claimed, atMs + JOB_LEASE_MS, k + 1);
    } else {
      review, after := next, failed;
    }
  }

  /** A publication on a row that has moved on is refused, for whichever reason comes first. */
  lemma PublicationIsStale(s: Store, job: ImageJob, row: ImageJob, env: Env) returns (failure: string)
    requires Lookup(s.jobs, job.request.jobId) == Some(row) && env.works
    requires !row.state.Ready? && row.version != job.version
    ensures CallPublish(s, job, env) == Reply(s, Err(failure))
  {
    hide IsValid, Apply, ReadyPaths, ReadyPathsInScope, MatchesJob, HasReadyRegistration, CodeOf;
    var c := Command(job.version, env.atMs, MarkReady(TokenOf(job), true, true));
    assert Transition(row, c).Err?;
    var upload := Registration(job, env.atMs);
    failure := CodeOf(Publish(s, job.request.jobId, c, upload, env.capacity).error);
  }

  /** Rename, be refused the publication, read the row: the driver starts to compensate what it read. */
  lemma LateDriverCompensates(w: World, job: ImageJob, row: ImageJob, env: Env) returns (failure: string, after: World)
    requires IsReached(w) && |w.actors| > 0 && w.actors[0] == Renaming(job) && TempOf(job) in w.files
    requires Lookup(w.store.jobs, job.request.jobId) == Some(row) && row.state.ManualReview?
    requires row.request == job.request && row.version != job.version
    requires env.works && !env.replyLost && env.readable
    ensures IsReached(after) && FinalOf(job) in after.files
    ensures after.store == w.store && |after.actors| == |w.actors| && after.actors[1..] == w.actors[1..]
    ensures IsCurrent(after, 0, StartingCompensation(row, failure, PublishingDriver(job, failure)), row)
  {
    hide Next, IsReached, CallPublish;
    Renamed(w, 0, job, env);
    var w1 := Next(w, Proceed(0, env));
    ReachedMoves(w, 0, env, w1);
    failure := PublicationIsStale(w1.store, job, row, env);
    DriveSeen(w1, 0, env);
    var w2 := Moved(w1, 0, w1.store, w1.files, ReadingAfterPublish(job, failure));
    ReachedMoves(w1, 0, env, w2);
    CatchSeen(w2, 0, env);
    after := Next(w2, Proceed(0, env));
    ReachedMoves(w2, 0, env, after);
  }

  lemma CatchSeen(w: World, i: nat, env: Env)
    requires i < |w.actors| && w.actors[i].ReadingAfterPublish?
    ensures var o := CatchStep(w, w.actors[i], env);
            Next(w, Proceed(i, env)) == World(o.store, o.files, o.strays, w.actors[i := o.actor])
  {
    hide CatchStep;
  }

  lemma ReviewIsReached(input: NewImageJob, atMs: int) returns (w: World, job: ImageJob, review: ImageJob)
    requires IsUsable(input, atMs)
    ensures IsReached(w) && Lookup(w.store.jobs, input.jobId) == Some(review)
    ensures |w.actors| > 0 && w.actors[0] == Renaming(job) && TempOf(job) in w.files
    ensures job.request == review.request == input && job.version == 4
    ensures review.state.ManualReview? && !HasCompensationAttemptsLeft(review) && 4 < review.version <= 45
    ensures 0 <= review.updatedAtMs <= atMs + 20 * JOB_LEASE_MS
    ensures IsAlone(w.store, input) && AreDone(w.actors, 1)
  {
    hide IsReached, IsSound, TokenNo, IsUsable, IsHeld;
    UsableIsEpoch(input, atMs);
    var stalled, held := UploadStalls(input, atMs);
    job := held;
    HeldIsPublishing(job, input, atMs);
    RequestHasAttempts(job);
    var row, mid := RecoveryOvertakes(stalled, job, input, atMs, Failing(Expiry(atMs)));
    IsRowOf(stalled.store, input.jobId, row);
    StaysAlone(stalled.store, input, row);
    assert mid.actors[..|mid.actors| - 1] == [Renaming(job)];
    review, w := AttemptsRunOut(mid, input, job, row, Expiry(atMs), 1);
  }

  /** The row after the late upload has re-opened its review: due at once, and without attempts. */
  predicate IsReopened(w: World, input: NewImageJob, atMs: int, row: ImageJob) {
    && Lookup(w.store.jobs, input.jobId) == Some(row) && row.request == input
    && IsExhausted(row) && row.version < 50
    && 0 <= row.updatedAtMs <= atMs + 21 * JOB_LEASE_MS && row.nextAttemptAtMs == Some(row.updatedAtMs)
    && FinalFile(input.outputStorageKey) in w.files && IsAlone(w.store, input)
    && |w.actors| > 0 && AreDone(w.actors, 1) && w.actors[0].ReadingAfterFailure?
  }

  lemma ReviewIsReopened(input: NewImageJob, atMs: int) returns (w: World, row: ImageJob)
    requires IsUsable(input, atMs)
    ensures IsReached(w) && IsReopened(w, input, atMs, row)
  {
    hide Next, IsReached, IsSound, TokenNo, IsUsable, Drives, IsGood, IsExhausted, WithRow;
    UsableIsEpoch(input, atMs);
    var before, job, review := ReviewIsReached(input, atMs);
    var env := Working(review.updatedAtMs, 0);
    WorkingIsSmooth(review.updatedAtMs, 0);
    hide IsPrompt, IsSmooth;
    var failure, mid := LateDriverCompensates(before, job, review, env);
    ReachedIsGood(mid);
    var n, after := CompensationOutcome(mid, 0, review, failure, PublishingDriver(job, failure), env);
    ReachedThrough(mid, 0, env, n, after);
    w := after;
    row := ReopenedRow(mid, input, review, PublishingDriver(job, failure), env.atMs, after);
    assert forall i | 1 <= i < |mid.actors| :: mid.actors[i] == mid.actors[1..][i - 1] == before.actors[i];
  }

  lemma ReopenedRow(w: World, input: NewImageJob, review: ImageJob, caller: Caller, atMs: int, after: World)
    returns (row: ImageJob)
    requires IsOutcome(w, 0, review, caller, atMs, after) && caller.PublishingDriver?
    requires review.state.ManualReview? && !HasCompensationAttemptsLeft(review)
    requires review.request == input && IsAlone(w.store, input)
    ensures Lookup(after.store.jobs, input.jobId) == Some(row) && row.request == input
    ensures IsExhausted(row) && row.version == review.version + 1
    ensures row.updatedAtMs == atMs && row.nextAttemptAtMs == Some(atMs)
    ensures after.files == w.files && IsAlone(after.store, input)
    ensures |after.actors| == |w.actors| && after.actors[0].ReadingAfterFailure?
    ensures forall i | 1 <= i < |w.actors| :: after.actors[i] == w.actors[i]
  {
    var left: ImageJob :|
      && left.request == review.request
      && after.store == WithRow(w.store, review.request.jobId, left)
      && IsLeftBy(review, atMs, left);
    row := left;
    StaysAlone(w.store, input, row);
    IsRowOf(w.store, input.jobId, row);
  }

  /**
   The catch block of #driveImageJob re-opens a review: for every usable request there is a run in which an
   upload stalls before its rename, recoveries use up the compensation attempts and leave the row for review,
   and the late upload then turns that row into a compensation without attempts, its public file in place.
   */
  lemma DriverReopensReview(input: NewImageJob, atMs: int) returns (es: seq<Event>)
    requires IsUsable(input, atMs)
    ensures IsLegalRun(EmptyWorld, es)
    ensures var w := RunAll(EmptyWorld, es);
            && input.jobId in w.store.jobs && IsExhausted(w.store.jobs[input.jobId])
            && FinalFile(input.outputStorageKey) in w.files
  {
    hide IsReached, IsUsable, RunAll, IsLegalRun, IsExhausted;
    var w, row := ReviewIsReopened(input, atMs);
    es := RunOf(w);
  }

  // ---------------------------------------------------------------------------------------------
  // A second upload that is never recovered
  // ---------------------------------------------------------------------------------------------

  /** Another request, creatable until well after the runs above have come to their end. */
  predicate IsSecond(second: NewImageJob, input: NewImageJob, atMs: int) {
    && CreateImageJob(second, atMs + 25 * JOB_LEASE_MS).Ok? && IsManagedImagePath(second.outputStorageKey)
    && second.jobId != input.jobId && second.requestKey != input.requestKey
    && second.outputStorageKey != input.outputStorageKey
  }

  lemma CreatableEarlier(input: NewImageJob, atMs: int, earlier: int)
    requires CreateImageJob(input, atMs).Ok? && 0 <= earlier <= atMs
    ensures CreateImageJob(input, earlier).Ok?
  {
    hide IsRequest;
  }

  /** A second upload reserves its job and crashes. */
  lemma SecondIsReserved(w: World, input: NewImageJob, second: NewImageJob, atMs: int, laterMs: int)
    returns (after: World)
    requires IsReached(w) && IsAlone(w.store, input) && IsSecond(second, input, atMs)
    requires 0 <= laterMs <= atMs + 25 * JOB_LEASE_MS && laterMs + JOB_LEASE_MS <= MAX_SAFE_INTEGER
    ensures IsReached(after)
    ensures after.store == WithReservation(w.store, InitialJob(second, laterMs))
    ensures after.actors == w.actors + [Crashed] && w.files <= after.files
  {
    hide Next, IsReached, IsSmooth, IsPrompt, CreateImageJob, IsManagedImagePath, Drives, TokenNo, WithReservation;
    CreatableEarlier(second, atMs + 25 * JOB_LEASE_MS, laterMs);
    WorkingIsSmooth(laterMs, 0);
    var env, i := Working(laterMs, 0), |w.actors|;
    UploadIsReserved(w, second, laterMs, env);
    ReachedOn(w, StartUpload(second, laterMs));
    var job := InitialJob(second, laterMs);
    var mid := Started(w, second, WithReservation(w.store, job), Driving(job));
    ReachedThrough(Next(w, StartUpload(second, laterMs)), i, env, 1, mid);
    after := CrashOf(mid, i);
  }

  /** The drainer's list in a store of these two rows. */
  lemma SecondIsListedSecond(s: Store, input: NewImageJob, second: NewImageJob, row: ImageJob, laterMs: int)
    requires IsAlone(s, input) && Lookup(s.jobs, input.jobId) == Some(row) && row.request == input
    requires IsExhausted(row) && row.updatedAtMs < laterMs && second.jobId != input.jobId
    requires row.nextAttemptAtMs == Some(row.updatedAtMs)
    ensures var next := WithReservation(s, InitialJob(second, laterMs));
            && IsRow(next, row) && RestsLongest(next, row) && IsOldest(next, row)
            && IsDue(row, laterMs) && IsAloneFirst(next, input.jobId, laterMs)
            && Lookup(next.jobs, second.jobId) == Some(InitialJob(second, laterMs))
            && NeedsRecovery(InitialJob(second, laterMs), laterMs)
  {
    var next := WithReservation(s, InitialJob(second, laterMs));
    assert next.jobs.Keys == {input.jobId, second.jobId};
    RestIsListed(next, row, laterMs);
  }

  lemma EndedAreHarmless(w: World, row: ImageJob)
    requires |w.actors| > 1 && w.actors[0].ReadingAfterFailure? && w.actors[|w.actors| - 1] == Crashed
    requires AreDone(w.actors[..|w.actors| - 1], 1)
    ensures AreHarmless(w, row) && AllArriveAfter(w, row.updatedAtMs)
  {
    forall i | 0 <= i < |w.actors|
      ensures IsHarmless(w.actors[i], row) && !IsReserving(w.actors[i])
    {
      assert 0 < i < |w.actors| - 1 ==> w.actors[..|w.actors| - 1][i] == w.actors[i];
    }
  }

  /** After an ordinary run with later uploads, from `nowMs` on, the row is there and comes first, alone. */
  predicate ComesFirstAfter(w: World, row: ImageJob, nowMs: int, more: seq<Event>, t: int) {
    && IsLegalRun(w, more) && AreOrdinary(more, row.request.jobId) && AllStartAfter(more, row.updatedAtMs)
    && nowMs <= t ==>
      IsRow(RunAll(w, more).store, row) && IsAloneFirst(RunAll(w, more).store, row.request.jobId, t)
  }

  ghost predicate AlwaysComesFirst(w: World, row: ImageJob, nowMs: int) {
    forall more: seq<Event>, t: int :: ComesFirstAfter(w, row, nowMs, more, t)
  }

  lemma KeepsComingFirst(w: World, row: ImageJob, nowMs: int)
    requires IsGood(w) && IsRow(w.store, row) && IsExhausted(row) && AreHarmless(w, row)
    requires RestsLongest(w.store, row) && AllArriveAfter(w, row.updatedAtMs) && IsDue(row, nowMs)
    ensures AlwaysComesFirst(w, row, nowMs)
  {
    forall more: seq<Event>, t: int
      ensures ComesFirstAfter(w, row, nowMs, more, t)
    {
      hide IsGood, IsRow, IsExhausted, AreHarmless, RestsLongest, AllArriveAfter, IsLegalRun, RunAll, IsAloneFirst;
      if && IsLegalRun(w, more) && AreOrdinary(more, row.request.jobId) && AllStartAfter(more, row.updatedAtMs)
         && nowMs <= t {
        ExhaustedRowStaysFirst(w, row, more, t);
      }
    }
  }

  /**
   Starvation from the empty world, for every two usable requests: the first becomes a compensation without
   attempts as above, the second is reserved later and its upload crashes. The second row needs recovery, but
   in every ordinary run from then on, whatever else arrives later, the first row stays what it is and comes
   alone first in the drainer's list.
   */
  lemma SecondRowStarves(input: NewImageJob, second: NewImageJob, atMs: int)
    returns (es: seq<Event>, row: ImageJob, nowMs: int)
    requires IsUsable(input, atMs) && IsSecond(second, input, atMs)
    ensures IsLegalRun(EmptyWorld, es)
    ensures var w := RunAll(EmptyWorld, es);
            && IsRow(w.store, row) && row.request == input && IsExhausted(row) && IsDue(row, nowMs)
            && IsOldest(w.store, row) && IsAloneFirst(w.store, input.jobId, nowMs)
            && FinalFile(input.outputStorageKey) in w.files
            && second.jobId in w.store.jobs && NeedsRecovery(w.store.jobs[second.jobId], nowMs)
    ensures AlwaysComesFirst(RunAll(EmptyWorld, es), row, nowMs)
  {
    hide AlwaysComesFirst, IsReached, IsUsable, IsSecond, RunAll, IsLegalRun, IsExhausted, IsGood;
    hide WithReservation, AreHarmless, AllArriveAfter, RestsLongest, IsOldest, IsAloneFirst, IsRow;
    hide NeedsRecovery, AreOrdinary, AllStartAfter;
    UsableIsEpoch(input, atMs);
    var before, left := ReviewIsReopened(input, atMs);
    row := left;
    nowMs := row.updatedAtMs + 1;
    var w := SecondIsReserved(before, input, second, atMs, nowMs);
    assert second.jobId != input.jobId by { SecondIsOther(second, input, atMs); }
    SecondIsListedSecond(before.store, input, second, row, nowMs);
    assert w.actors[..|w.actors| - 1] == before.actors;
    EndedAreHarmless(w, row);
    ReachedIsGood(w);
    KeepsComingFirst(w, row, nowMs);
    es := RunOf(w);
  }

  lemma SecondIsOther(second: NewImageJob, input: NewImageJob, atMs: int)
    requires IsSecond(second, input, atMs)
    ensures second.jobId != input.jobId
  {
    hide CreateImageJob, IsManagedImagePath;
  }

  // ---------------------------------------------------------------------------------------------
  // A usable request
  // ---------------------------------------------------------------------------------------------

  /** Only what follows a letter or a digit may be a dot: then no segment is `.` or `..`. */
  lemma HasNoDotSegments(s: string)
    requires forall k :: 0 <= k < |s| && s[k] == '.' ==> 0 < k && s[k - 1] != '/'
    ensures forall i, j | 0 <= i <= j <= |s| && SegmentAt(s, i, j) :: s[i..j] != "." && s[i..j] != ".."
  {
    forall i, j | 0 <= i <= j <= |s| && SegmentAt(s, i, j)
      ensures s[i..j] != "." && s[i..j] != ".."
    {
      if i < j {
        assert s[i..j][0] == s[i];
      }
    }
  }

  function Digits(c: char, n: nat): string {
    seq(n, k => c)
  }

  /** A request of the service's own shape, its random names all of one digit. */
  function Sample(c: char): NewImageJob {
    NewImageJob(
      Digits(c, 32), Digits(c, 64), Digits('0', 64), 1, 1, Digits('0', 64), 86_400_000,
      "private/job-" + Digits(c, 32) + ".input", "uploads/" + Digits(c, 16) + ".jpg", 3, 5)
  }

  /** Letters, digits and single dots between them, in a directory. */
  predicate IsPlainKey(s: string) {
    && 1 <= |s| <= 255 && IsAlphanumeric(s[0])
    && (forall k :: 0 <= k < |s| ==> IsAlphanumeric(s[k]) || s[k] in "._/-")
    && (forall k :: 0 < k < |s| && !IsAlphanumeric(s[k]) ==> IsAlphanumeric(s[k - 1]))
  }

  lemma PlainIsStorageKey(s: string)
    requires IsPlainKey(s)
    ensures IsStorageKey(s)
  {
    HasNoDotSegments(s);
    hide SegmentAt;
  }

  lemma SampleInputKey(c: char)
    requires '0' <= c <= '9'
    ensures IsPlainKey("private/job-" + Digits(c, 32) + ".input")
  {
  }

  lemma SampleOutputKey(c: char)
    requires '0' <= c <= '9'
    ensures IsPlainKey("uploads/" + Digits(c, 16) + ".jpg")
  {
  }

  lemma SampleIsManaged(c: char)
    requires '0' <= c <= '9'
    ensures IsManagedImagePath("uploads/" + Digits(c, 16) + ".jpg")
  {
    var path := "uploads/" + Digits(c, 16) + ".jpg";
    assert path[..8] == "uploads/" && path[24..] == ".jpg";
  }

  lemma SampleIsCreatable(c: char, atMs: int)
    requires '0' <= c <= '9' && 0 <= atMs < 86_400_000
    ensures CreateImageJob(Sample(c), atMs).Ok? && IsManagedImagePath(Sample(c).outputStorageKey)
  {
    SampleInputKey(c);
    SampleOutputKey(c);
    SampleIsManaged(c);
    hide IsPlainKey;
    PlainIsStorageKey(Sample(c).inputStorageKey);
    PlainIsStorageKey(Sample(c).outputStorageKey);
    hide IsStorageKey, IsManagedImagePath;
  }

  /** The runs above exist: two such requests meet their hypotheses. */
  lemma SamplesAreUsable()
    ensures IsUsable(Sample('0'), 0) && 2 <= Sample('0').maxCompensationAttempts
    ensures IsSecond(Sample('1'), Sample('0'), 0)
  {
    SampleIsCreatable('0', 0);
    SampleIsCreatable('1', 25 * JOB_LEASE_MS);
    hide CreateImageJob, IsManagedImagePath;
    assert Sample('0').jobId[0] != Sample('1').jobId[0];
    assert Sample('0').requestKey[0] != Sample('1').requestKey[0];
    assert Sample('0').outputStorageKey[8] != Sample('1').outputStorageKey[8];
  }
}
