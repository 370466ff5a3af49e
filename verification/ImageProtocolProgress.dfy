/**
 Progress: from every reachable world, an upload under fresh names whose own calls all work is answered
 with its path after nine steps, whatever else is stopped or under way.
 */
module ImageProtocolProgress {
  import opened Outcomes
  import opened ImageJobPolicy
  import opened ImageJobEffects
  import opened ImageJobRecovery
  import opened ImageStores
  import opened ImageStoreAgreement
  import opened ImageProtocol
  import opened ImageProtocolSafety
  import opened ImageProtocolRuns
  import opened ImageProtocolDrives

  /** Every call works and answers; the lease outlasts the moment; the worker reports a picture. */
  predicate IsSmooth(env: Env, atMs: int) {
    && env.works && !env.replyLost && env.readable
    && env.atMs == atMs
    && IsLease(DriverLease(env), atMs, true)
    && 0 < env.width <= MAX_DIMENSION && 0 < env.height <= MAX_DIMENSION
  }

  function DriverLease(env: Env): Lease {
    Lease("web-1", env.token, env.atMs, env.atMs + env.leaseMs)
  }

  /** There is room for one more registration of this owner and session. */
  predicate HasRoom(s: Store, input: NewImageJob, capacity: Capacity) {
    && |ReadyPathsInScope(s, input.userId, input.sessionScopeHash)| < capacity.readyPerSession
    && |ReadyPaths(s)| < capacity.readyTotal
  }

  predicate IsFreshInput(s: Store, input: NewImageJob, atMs: int) {
    && CreateImageJob(input, atMs).Ok?
    && input.jobId !in s.jobs && input.requestKey !in s.jobIdByRequest
    && input.outputStorageKey !in s.jobIdByOutput && IsManagedImagePath(input.outputStorageKey)
  }

  // ---------------------------------------------------------------------------------------------
  // The row on its way
  // ---------------------------------------------------------------------------------------------

  /** The commands that a row in `state` still takes on its way to `ready`. */
  function CommandsLeft(state: JobState): nat {
    match state
    case Processing => 3
    case OutputReady => 2
    case Publishing => 1
    case _ => 0
  }

  /** The call's row in `state`, held under its own live lease. */
  predicate IsHeld(job: ImageJob, input: NewImageJob, state: JobState, atMs: int, env: Env) {
    && IsSound(job) && job.request == input && job.state == state
    && job.updatedAtMs == atMs && job.version + CommandsLeft(state) <= MAX_SAFE_INTEGER
    && job.lease == Some(DriverLease(env)) && atMs < env.atMs + env.leaseMs
    && (!state.Processing? ==> job.resultSourceWidth == Some(env.width) && job.resultSourceHeight == Some(env.height))
  }

  lemma EnqueueAccepted(input: NewImageJob, atMs: int) returns (next: ImageJob)
    requires CreateImageJob(input, atMs).Ok?
    ensures Transition(InitialJob(input, atMs), Command(0, atMs, Enqueue(atMs))) == Ok(next)
    ensures IsSound(next) && next.request == input && next.state.Queued? && next.version == 1
    ensures next.updatedAtMs == atMs && next.nextAttemptAtMs == Some(atMs) && next.attemptCount == 0
  {
    hide IsRequest, IsErrorCode, IsLeaseOwner, IsHexText;
    CreatedJobIsSound(input, atMs);
    next := AcceptedNext(InitialJob(input, atMs), Command(0, atMs, Enqueue(atMs)));
  }

  /** A queued row that is due, with room for the versions to come. */
  predicate IsWaiting(job: ImageJob, atMs: int) {
    && IsSound(job) && job.state.Queued? && job.updatedAtMs <= atMs
    && (job.nextAttemptAtMs.Some? ==> job.nextAttemptAtMs.value <= atMs)
    && job.version + 4 <= MAX_SAFE_INTEGER
  }

  lemma ClaimAccepted(job: ImageJob, atMs: int, env: Env) returns (next: ImageJob)
    requires IsWaiting(job, atMs) && IsSmooth(env, atMs)
    ensures var claim := ClaimProcessing("web-1", env.token, atMs + env.leaseMs);
            Transition(job, Command(job.version, atMs, claim)) == Ok(next)
    ensures IsHeld(next, job.request, Processing, atMs, env) && next.version == job.version + 1
    ensures next.attemptCount == job.attemptCount + 1
  {
    hide IsRequest, IsErrorCode, IsLeaseOwner, IsHexText;
    next := AcceptedNext(
      job, Command(job.version, atMs, ClaimProcessing("web-1", env.token, atMs + env.leaseMs)));
  }

  /** A holder-only command of the publishing path. */
  lemma HolderAccepted(job: ImageJob, state: JobState, atMs: int, env: Env, a: Action) returns (next: ImageJob)
    requires IsHeld(job, job.request, state, atMs, env) && IsSmooth(env, atMs)
    requires
      || (state.Processing? && a == RecordOutputReady(env.token, env.width, env.height))
      || (state.OutputReady? && a == BeginPublication(env.token))
      || (state.Publishing? && a == MarkReady(env.token, true, true))
    ensures Transition(job, Command(job.version, atMs, a)) == Ok(next)
    ensures next == Effect(job, Command(job.version, atMs, a)) && IsSound(next)
  {
    hide IsRequest, IsErrorCode, IsLeaseOwner, IsHexText, IsStorageKey;
    next := AcceptedNext(job, Command(job.version, atMs, a));
  }

  lemma HeldGoesOn(job: ImageJob, state: JobState, atMs: int, env: Env, a: Action) returns (next: ImageJob)
    requires IsHeld(job, job.request, state, atMs, env) && IsSmooth(env, atMs)
    requires
      || (state.Processing? && a == RecordOutputReady(env.token, env.width, env.height))
      || (state.OutputReady? && a == BeginPublication(env.token))
    ensures Transition(job, Command(job.version, atMs, a)) == Ok(next) && next.version == job.version + 1
    ensures next.attemptCount == job.attemptCount
    ensures IsHeld(next, job.request, if state.Processing? then OutputReady else Publishing, atMs, env)
  {
    next := HolderAccepted(job, state, atMs, env, a);
    hide IsSound, Transition, IsLease;
  }

  // ---------------------------------------------------------------------------------------------
  // The call on its way
  // ---------------------------------------------------------------------------------------------

  lemma Reserved(w: World, i: nat, input: NewImageJob, atMs: int, env: Env)
    requires i < |w.actors| && w.actors[i] == Reserving(input, atMs)
    requires IsFreshInput(w.store, input, atMs) && IsSmooth(env, atMs)
    ensures IsLegal(w, Proceed(i, env))
    ensures var job := InitialJob(input, atMs);
            Next(w, Proceed(i, env)) == Moved(w, i, WithReservation(w.store, job), w.files, Driving(job))
  {
    hide IsValid, IsManagedImagePath, IsLease;
  }

  lemma Enqueued(w: World, i: nat, input: NewImageJob, atMs: int, env: Env) returns (job: ImageJob)
    requires CreateImageJob(input, atMs).Ok? && IsSmooth(env, atMs)
    requires IsCurrent(w, i, Driving(InitialJob(input, atMs)), InitialJob(input, atMs))
    ensures Next(w, Proceed(i, env)) == Moved(w, i, WithRow(w.store, input.jobId, job), w.files, Claiming(job))
    ensures IsSound(job) && job.request == input && job.state.Queued? && job.version == 1
    ensures job.updatedAtMs == atMs && job.nextAttemptAtMs == Some(atMs) && job.attemptCount == 0
  {
    hide IsSound, Transition, CallTransition, IsLease, CreateImageJob, Next;
    job := EnqueueAccepted(input, atMs);
    Commanded(w.store, InitialJob(input, atMs), atMs, Enqueue(atMs), env, job);
    DriveSeen(w, i, env);
  }

  lemma Claimed(w: World, i: nat, job: ImageJob, atMs: int, env: Env) returns (next: ImageJob)
    requires IsCurrent(w, i, Claiming(job), job) && IsWaiting(job, atMs) && IsSmooth(env, atMs)
    ensures Next(w, Proceed(i, env))
            == Moved(w, i, WithRow(w.store, job.request.jobId, next), w.files, Executing(next))
    ensures IsHeld(next, job.request, Processing, atMs, env) && next.version == job.version + 1
    ensures next.attemptCount == job.attemptCount + 1
  {
    hide IsSound, Transition, CallTransition, IsLease, Next, IsHeld;
    next := ClaimAccepted(job, atMs, env);
    Commanded(w.store, job, atMs, ClaimProcessing("web-1", env.token, atMs + env.leaseMs), env, next);
    DriveSeen(w, i, env);
  }

  lemma Executed(w: World, i: nat, job: ImageJob, env: Env)
    requires i < |w.actors| && w.actors[i] == Executing(job) && env.works
    ensures Next(w, Proceed(i, env))
            == Moved(w, i, w.store, w.files + {TempOf(job)}, RecordingOutput(job, env.width, env.height))
  {
    DriveSeen(w, i, env);
    hide Next;
  }

  lemma Recorded(w: World, i: nat, job: ImageJob, atMs: int, env: Env) returns (next: ImageJob)
    requires IsCurrent(w, i, RecordingOutput(job, env.width, env.height), job) && IsSmooth(env, atMs)
    requires IsHeld(job, job.request, Processing, atMs, env)
    ensures Next(w, Proceed(i, env))
            == Moved(w, i, WithRow(w.store, job.request.jobId, next), w.files, BeginningPublication(next))
    ensures IsHeld(next, job.request, OutputReady, atMs, env) && next.version == job.version + 1
    ensures next.attemptCount == job.attemptCount
  {
    hide IsSound, Transition, CallTransition, IsLease, Next;
    var action := RecordOutputReady(env.token, env.width, env.height);
    next := HeldGoesOn(job, Processing, atMs, env, action);
    Commanded(w.store, job, atMs, action, env, next);
    DriveSeen(w, i, env);
  }

  lemma Begun(w: World, i: nat, job: ImageJob, atMs: int, env: Env) returns (next: ImageJob)
    requires IsCurrent(w, i, BeginningPublication(job), job) && IsSmooth(env, atMs)
    requires IsHeld(job, job.request, OutputReady, atMs, env)
    ensures Next(w, Proceed(i, env))
            == Moved(w, i, WithRow(w.store, job.request.jobId, next), w.files, Renaming(next))
    ensures IsHeld(next, job.request, Publishing, atMs, env) && next.version == job.version + 1
    ensures next.attemptCount == job.attemptCount
  {
    hide IsSound, Transition, CallTransition, IsLease, Next;
    next := HeldGoesOn(job, OutputReady, atMs, env, BeginPublication(env.token));
    Commanded(w.store, job, atMs, BeginPublication(env.token), env, next);
    DriveSeen(w, i, env);
  }

  lemma Renamed(w: World, i: nat, job: ImageJob, env: Env)
    requires i < |w.actors| && w.actors[i] == Renaming(job)
    requires env.works && !env.replyLost && TempOf(job) in w.files
    ensures Next(w, Proceed(i, env))
            == Moved(w, i, w.store, w.files - {TempOf(job)} + {FinalOf(job)}, MarkingReady(job))
  {
    DriveSeen(w, i, env);
    hide Next;
  }

  /** The row is ready and its path registered for its owner, not yet attached. */
  function AfterPublication(s: Store, job: ImageJob, ready: ImageJob, atMs: int): Store {
    var r := job.request;
    var upload := Upload(
      r.outputStorageKey, r.userId, r.sessionScopeHash, atMs, r.ownershipExpiresAtMs, ReadyUpload, None);
    s.(jobs := s.jobs[r.jobId := ready], uploads := s.uploads[r.outputStorageKey := upload])
  }

  predicate IsReadied(job: ImageJob, ready: ImageJob) {
    && IsSound(ready) && ready.state == Ready && ready.request == job.request
    && ready.attemptCount == job.attemptCount
    && ready.resultSourceWidth == job.resultSourceWidth && ready.resultSourceHeight == job.resultSourceHeight
  }

  lemma Published(w: World, i: nat, job: ImageJob, atMs: int, env: Env) returns (next: ImageJob)
    requires IsCurrent(w, i, MarkingReady(job), job) && IsSmooth(env, atMs)
    requires IsHeld(job, job.request, Publishing, atMs, env)
    requires job.request.outputStorageKey !in w.store.uploads && HasRoom(w.store, job.request, env.capacity)
    ensures Next(w, Proceed(i, env))
            == Moved(w, i, AfterPublication(w.store, job, next, atMs), w.files, Finishing(next, true))
    ensures IsReadied(job, next)
  {
    hide IsSound, Transition, CallPublish, IsLease, Next;
    next := HolderAccepted(job, Publishing, atMs, env, MarkReady(env.token, true, true));
    PublishAccepted(w.store, job, atMs, env, next);
    DriveSeen(w, i, env);
  }

  lemma PublishAccepted(s: Store, job: ImageJob, atMs: int, env: Env, next: ImageJob)
    requires Lookup(s.jobs, job.request.jobId) == Some(job)
    requires IsSmooth(env, atMs) && IsHeld(job, job.request, Publishing, atMs, env)
    requires Transition(job, Command(job.version, atMs, MarkReady(env.token, true, true))) == Ok(next)
    requires job.request.outputStorageKey !in s.uploads && HasRoom(s, job.request, env.capacity)
    ensures CallPublish(s, job, env) == Reply(AfterPublication(s, job, next, atMs), Ok(next))
  {
    hide Transition, IsSound, IsLease, HasReadyRegistration, ReadyPaths, ReadyPathsInScope;
  }

  lemma Answered(w: World, i: nat, job: ImageJob, env: Env)
    requires i < |w.actors| && w.actors[i] == Finishing(job, true) && env.works
    requires IsSound(job) && job.state.Ready?
    ensures Next(w, Proceed(i, env))
            == Moved(w, i, w.store, w.files - {InputOf(job)}, Done(Some(job.request.outputStorageKey)))
  {
    SoundAttachable(job);
    hide IsSound, IsAttachableJob;
  }

  lemma ServedOnceAnswered(w: World, i: nat, path: string)
    requires IsGood(w) && i < |w.actors| && w.actors[i] == Done(Some(path))
    ensures IsServed(w, path)
  {
    hide IsIndexed, IsRegistered, IsLinked, HasReadyFiles, IsCondemned, IsServed;
    assert IsSafe(w.store, w.files, w.actors[i]);
    GoodServesReady(w, w.store.jobIdByOutput[path]);
  }

  // ---------------------------------------------------------------------------------------------
  // The whole upload
  // ---------------------------------------------------------------------------------------------

  /** The world with one more call, an upload of `input` now at `a`. */
  function Started(w: World, input: NewImageJob, store: Store, a: Actor): World {
    World(store, w.files + {InputFile(input.inputStorageKey)}, w.strays, w.actors + [a])
  }

  /** The world after an upload has come from its start to the brink of its rename. */
  function AtRename(w: World, input: NewImageJob, atMs: int, job: ImageJob): World {
    var booked := WithReservation(w.store, InitialJob(input, atMs));
    Started(w, input, WithRow(booked, input.jobId, job), Renaming(job)).(
      files := w.files + {InputFile(input.inputStorageKey)} + {TempFile(input.jobId)})
  }

  lemma StartsUpload(w: World, input: NewImageJob, atMs: int)
    ensures Next(w, StartUpload(input, atMs)) == Started(w, input, w.store, Reserving(input, atMs))
  {
  }

  lemma UploadIsReserved(w: World, input: NewImageJob, atMs: int, env: Env)
    requires IsFreshInput(w.store, input, atMs) && IsSmooth(env, atMs)
    ensures var job := InitialJob(input, atMs);
            Drives(
              Next(w, StartUpload(input, atMs)), |w.actors|, env, 1,
              Started(w, input, WithReservation(w.store, job), Driving(job)))
  {
    hide Next, IsSmooth, CreateImageJob, IsLegal, IsManagedImagePath, Drives, WithReservation;
    var i := |w.actors|;
    StartsUpload(w, input, atMs);
    var w0 := Next(w, StartUpload(input, atMs));
    Reserved(w0, i, input, atMs, env);
    DrivesOnce(w0, i, env, env.file);
    assert env.(file := env.file) == env;
    var job := InitialJob(input, atMs);
    assert w0.actors[i := Driving(job)] == w.actors + [Driving(job)];
  }

  /** Reserve, enqueue. */
  lemma UploadIsQueued(w: World, input: NewImageJob, atMs: int, env: Env) returns (job: ImageJob, after: World)
    requires IsFreshInput(w.store, input, atMs) && IsSmooth(env, atMs)
    ensures Drives(Next(w, StartUpload(input, atMs)), |w.actors|, env, 2, after)
    ensures var booked := WithReservation(w.store, InitialJob(input, atMs));
            after == Started(w, input, WithRow(booked, input.jobId, job), Claiming(job))
    ensures IsSound(job) && job.request == input && job.state.Queued? && job.version == 1
    ensures job.updatedAtMs == atMs && job.nextAttemptAtMs == Some(atMs) && job.attemptCount == 0
  {
    hide Next, IsSmooth, CreateImageJob, IsManagedImagePath, Drives, IsSound;
    var i, booked := |w.actors|, WithReservation(w.store, InitialJob(input, atMs));
    UploadIsReserved(w, input, atMs, env);
    var w1 := Started(w, input, booked, Driving(InitialJob(input, atMs)));
    job := Enqueued(w1, i, input, atMs, env);
    after := Next(w1, Proceed(i, env));
    DrivesOn(Next(w, StartUpload(input, atMs)), i, env, 1, w1, env.file);
    assert w1.actors[i := Claiming(job)] == w.actors + [Claiming(job)];
  }

  lemma RevealHeld(job: ImageJob, input: NewImageJob, state: JobState, atMs: int, env: Env)
    requires IsHeld(job, input, state, atMs, env)
    ensures job.request == input
  {
  }

  lemma RevealSmooth(env: Env, atMs: int)
    requires IsSmooth(env, atMs)
    ensures env.works && !env.replyLost && env.readable && env.atMs == atMs
  {
  }

  /** Claim, execute. */
  lemma QueuedIsExecuted(w: World, i: nat, queued: ImageJob, atMs: int, env: Env)
    returns (job: ImageJob, after: World)
    requires IsCurrent(w, i, Claiming(queued), queued) && IsWaiting(queued, atMs) && IsSmooth(env, atMs)
    ensures Drives(w, i, env, 2, after)
    ensures var id := queued.request.jobId;
            after == Moved(
                       w, i, WithRow(w.store, id, job), w.files + {TempFile(id)},
                       RecordingOutput(job, env.width, env.height))
    ensures IsHeld(job, queued.request, Processing, atMs, env) && job.version == queued.version + 1
    ensures job.attemptCount == queued.attemptCount + 1
  {
    hide Next, IsSmooth, Drives, IsWaiting, IsHeld;
    RevealSmooth(env, atMs);
    DriveStarts(w, i, env);
    job := Claimed(w, i, queued, atMs, env);
    RevealHeld(job, queued.request, Processing, atMs, env);
    DrivesOn(w, i, env, 0, w, env.file);
    var w1 := Next(w, Proceed(i, env));
    Executed(w1, i, job, env);
    DrivesOn(w, i, env, 1, w1, env.file);
    after := Next(w1, Proceed(i, env));
  }

  /** Record, begin. */
  lemma ExecutedReachesRename(w: World, i: nat, processing: ImageJob, atMs: int, env: Env)
    returns (job: ImageJob, after: World)
    requires IsCurrent(w, i, RecordingOutput(processing, env.width, env.height), processing) && IsSmooth(env, atMs)
    requires IsHeld(processing, processing.request, Processing, atMs, env)
    ensures Drives(w, i, env, 2, after)
    ensures after == Moved(w, i, WithRow(w.store, processing.request.jobId, job), w.files, Renaming(job))
    ensures IsHeld(job, processing.request, Publishing, atMs, env) && job.version == processing.version + 2
    ensures job.attemptCount == processing.attemptCount
  {
    hide Next, IsSmooth, Drives, IsSound, IsHeld;
    DriveStarts(w, i, env);
    var output := Recorded(w, i, processing, atMs, env);
    RevealHeld(output, processing.request, OutputReady, atMs, env);
    DrivesOn(w, i, env, 0, w, env.file);
    var w1 := Next(w, Proceed(i, env));
    job := Begun(w1, i, output, atMs, env);
    DrivesOn(w, i, env, 1, w1, env.file);
    after := Next(w1, Proceed(i, env));
    LastRowCounts(w.store, processing.request.jobId, output, job);
  }

  /** An upload on its own comes to its rename, holding its row and with its output in place. */
  lemma UploadReachesRename(w: World, input: NewImageJob, atMs: int, env: Env) returns (job: ImageJob)
    requires IsFreshInput(w.store, input, atMs) && IsSmooth(env, atMs)
    ensures Drives(Next(w, StartUpload(input, atMs)), |w.actors|, env, 6, AtRename(w, input, atMs, job))
    ensures IsHeld(job, input, Publishing, atMs, env) && job.version == 4
  {
    hide Next, IsSmooth, Drives, IsSound, IsHeld, IsFreshInput, WithReservation, WithRow;
    var i, id := |w.actors|, input.jobId;
    var w0 := Next(w, StartUpload(input, atMs));
    var booked := WithReservation(w.store, InitialJob(input, atMs));
    var queued, mid := UploadIsQueued(w, input, atMs, env);
    IsRowOf(booked, id, queued);
    var row, after := QueuedReachesRename(mid, i, queued, atMs, env);
    LastRowCounts(booked, id, queued, row);
    DrivesCompose(w0, i, env, 2, mid, 4, after);
    job := row;
    assert after == AtRename(w, input, atMs, job);
  }

  /**
   Call i has published `job` and answered: a ready row, its registration, the public file in place of the
   private ones, and nothing else changed.
   */
  ghost predicate IsCompleted(w: World, i: nat, job: ImageJob, atMs: int, after: World)
    requires i < |w.actors|
  {
    exists ready: ImageJob ::
      && IsReadied(job, ready)
      && after == Moved(
                    w, i, AfterPublication(w.store, job, ready, atMs),
                    w.files - {TempOf(job), InputOf(job)} + {FinalOf(job)},
                    Done(Some(job.request.outputStorageKey)))
  }

  lemma CompletedAt(w: World, i: nat, job: ImageJob, atMs: int, ready: ImageJob, after: World)
    requires i < |w.actors| && IsReadied(job, ready)
    requires var answer := Done(Some(job.request.outputStorageKey));
             after == Moved(
                        w, i, AfterPublication(w.store, job, ready, atMs),
                        w.files - {TempOf(job)} + {FinalOf(job)} - {InputOf(job)}, answer)
    ensures IsCompleted(w, i, job, atMs, after)
  {
    hide AfterPublication, IsReadied;
    var files := w.files - {TempOf(job), InputOf(job)} + {FinalOf(job)};
    assert w.files - {TempOf(job)} + {FinalOf(job)} - {InputOf(job)} == files;
  }

  /** Rename, publish, finish. */
  lemma RenameCompletes(w: World, i: nat, job: ImageJob, atMs: int, env: Env) returns (after: World)
    requires IsCurrent(w, i, Renaming(job), job) && IsSmooth(env, atMs) && TempOf(job) in w.files
    requires IsHeld(job, job.request, Publishing, atMs, env)
    requires job.request.outputStorageKey !in w.store.uploads && HasRoom(w.store, job.request, env.capacity)
    ensures Drives(w, i, env, 3, after)
    ensures IsCompleted(w, i, job, atMs, after)
  {
    hide Next, IsSmooth, Drives, IsSound, IsHeld, HasRoom, AfterPublication;
    RevealSmooth(env, atMs);
    DriveStarts(w, i, env);
    Renamed(w, i, job, env);
    DrivesOn(w, i, env, 0, w, env.file);
    var w1 := Next(w, Proceed(i, env));
    var ready := Published(w1, i, job, atMs, env);
    DrivesOn(w, i, env, 1, w1, env.file);
    var w2 := Next(w1, Proceed(i, env));
    Answered(w2, i, ready, env);
    DrivesOn(w, i, env, 2, w2, env.file);
    after := Next(w2, Proceed(i, env));
    CompletedAt(w, i, job, atMs, ready, after);
  }

  /** A call that holds a queued, due row comes to its rename on its own. */
  lemma QueuedReachesRename(w: World, i: nat, queued: ImageJob, atMs: int, env: Env)
    returns (job: ImageJob, after: World)
    requires IsCurrent(w, i, Claiming(queued), queued) && IsWaiting(queued, atMs) && IsSmooth(env, atMs)
    ensures Drives(w, i, env, 4, after)
    ensures var id := queued.request.jobId;
            after == Moved(w, i, WithRow(w.store, id, job), w.files + {TempFile(id)}, Renaming(job))
    ensures IsHeld(job, queued.request, Publishing, atMs, env) && job.version == queued.version + 3
    ensures job.attemptCount == queued.attemptCount + 1
  {
    hide Next, IsSmooth, Drives, IsWaiting, IsHeld, WithRow;
    var id := queued.request.jobId;
    var processing, mid := QueuedIsExecuted(w, i, queued, atMs, env);
    RevealHeld(processing, queued.request, Processing, atMs, env);
    IsRowOf(w.store, id, processing);
    var row, end := ExecutedReachesRename(mid, i, processing, atMs, env);
    LastRowCounts(w.store, id, processing, row);
    DrivesCompose(w, i, env, 2, mid, 2, end);
    job, after := row, end;
  }

  lemma UploadsDecideRoom(s: Store, next: Store, input: NewImageJob, capacity: Capacity)
    requires HasRoom(s, input, capacity) && next.uploads == s.uploads
    ensures HasRoom(next, input, capacity)
  {
    assert ReadyPaths(next) == ReadyPaths(s);
    assert ReadyPathsInScope(next, input.userId, input.sessionScopeHash)
        == ReadyPathsInScope(s, input.userId, input.sessionScopeHash);
    hide ReadyPaths, ReadyPathsInScope;
  }

  lemma ReservationKeepsRoom(s: Store, input: NewImageJob, atMs: int, job: ImageJob, capacity: Capacity)
    requires HasRoom(s, input, capacity)
    ensures var next := WithRow(WithReservation(s, InitialJob(input, atMs)), input.jobId, job);
            HasRoom(next, input, capacity) && next.uploads == s.uploads
  {
    UploadsDecideRoom(s, WithRow(WithReservation(s, InitialJob(input, atMs)), input.jobId, job), input, capacity);
    hide HasRoom;
  }

  /**
   Call i has taken the queued row to its end and answered: one more attempt, the worker's dimensions, a
   ready row with its registration, and the public file in place of the private ones.
   */
  ghost predicate IsCompletedFrom(w: World, i: nat, queued: ImageJob, atMs: int, env: Env, after: World)
    requires i < |w.actors|
  {
    exists ready: ImageJob ::
      && IsSound(ready) && ready.state == Ready && ready.request == queued.request
      && ready.attemptCount == queued.attemptCount + 1
      && ready.resultSourceWidth == Some(env.width) && ready.resultSourceHeight == Some(env.height)
      && after == Moved(
                    w, i, AfterPublication(w.store, queued, ready, atMs),
                    w.files - {TempOf(queued), InputOf(queued)} + {FinalOf(queued)},
                    Done(Some(queued.request.outputStorageKey)))
  }

  lemma CompletedFrom(w: World, i: nat, queued: ImageJob, atMs: int, env: Env, job: ImageJob, after: World)
    requires i < |w.actors| && IsHeld(job, queued.request, Publishing, atMs, env)
    requires job.attemptCount == queued.attemptCount + 1
    requires var id := queued.request.jobId;
             var mid := Moved(w, i, WithRow(w.store, id, job), w.files + {TempFile(id)}, Renaming(job));
             IsCompleted(mid, i, job, atMs, after)
    ensures IsCompletedFrom(w, i, queued, atMs, env, after)
  {
    hide IsSound;
    var id := queued.request.jobId;
    var mid := Moved(w, i, WithRow(w.store, id, job), w.files + {TempFile(id)}, Renaming(job));
    var ready: ImageJob :|
      && IsReadied(job, ready)
      && after == Moved(
                    mid, i, AfterPublication(mid.store, job, ready, atMs),
                    mid.files - {TempOf(job), InputOf(job)} + {FinalOf(job)},
                    Done(Some(job.request.outputStorageKey)));
    assert mid.files - {TempOf(job), InputOf(job)} == w.files - {TempOf(queued), InputOf(queued)};
    assert mid.store.jobs[id := ready] == w.store.jobs[id := ready];
    assert mid.actors[i := Done(Some(job.request.outputStorageKey))]
        == w.actors[i := Done(Some(queued.request.outputStorageKey))];
  }

  lemma CompletedIsAnswered(w: World, i: nat, queued: ImageJob, atMs: int, env: Env, after: World)
    requires i < |w.actors| && IsCompletedFrom(w, i, queued, atMs, env, after)
    ensures i < |after.actors| && after.actors[i] == Done(Some(queued.request.outputStorageKey))
  {
    hide IsSound, AfterPublication;
  }

  /** From a queued row that is due: claim, execute, record, begin, rename, publish, finish. */
  lemma QueuedCompletes(w: World, i: nat, queued: ImageJob, atMs: int, env: Env) returns (after: World)
    requires IsGood(w) && IsCurrent(w, i, Claiming(queued), queued) && IsWaiting(queued, atMs)
    requires IsSmooth(env, atMs) && HasRoom(w.store, queued.request, env.capacity)
    ensures Drives(w, i, env, 7, after)
    ensures IsCompletedFrom(w, i, queued, atMs, env, after)
    ensures IsServed(after, queued.request.outputStorageKey)
  {
    hide Next, IsSmooth, Drives, IsWaiting, IsHeld, IsGood, HasRoom, IsServed, Agrees, IsCompleted, IsCompletedFrom;
    GoodAgrees(w);
    WaitingIsUnregistered(w.store, queued, atMs);
    var job, mid := QueuedReachesRename(w, i, queued, atMs, env);
    RevealHeld(job, queued.request, Publishing, atMs, env);
    UploadsDecideRoom(w.store, mid.store, queued.request, env.capacity);
    after := RenameCompletes(mid, i, job, atMs, env);
    CompletedFrom(w, i, queued, atMs, env, job, after);
    DrivesCompose(w, i, env, 4, mid, 3, after);
    DrivesStayGood(w, i, env, 7, after);
    CompletedIsAnswered(w, i, queued, atMs, env, after);
    ServedOnceAnswered(after, i, queued.request.outputStorageKey);
  }

  lemma WaitingIsUnregistered(s: Store, queued: ImageJob, atMs: int)
    requires Agrees(s) && Lookup(s.jobs, queued.request.jobId) == Some(queued) && IsWaiting(queued, atMs)
    ensures queued.request.outputStorageKey !in s.uploads
  {
    UnpublishedIsUnseen(s, queued.request.jobId);
    hide Agrees, IsSound;
  }

  /** The upload's end: its row ready after one attempt, registered and served, and nothing else changed. */
  ghost predicate IsUploaded(w: World, input: NewImageJob, atMs: int, env: Env, after: World) {
    exists ready: ImageJob ::
      && IsSound(ready) && ready.state == Ready && ready.request == input && ready.attemptCount == 1
      && ready.resultSourceWidth == Some(env.width) && ready.resultSourceHeight == Some(env.height)
      && var job := InitialJob(input, atMs);
         after == World(
                    AfterPublication(WithReservation(w.store, job), job, ready, atMs),
                    w.files - {TempOf(job), InputOf(job)} + {FinalOf(job)},
                    w.strays, w.actors + [Done(Some(input.outputStorageKey))])
  }

  lemma UploadedFrom(w: World, input: NewImageJob, atMs: int, env: Env, queued: ImageJob, after: World)
    requires queued.request == input && queued.attemptCount == 0
    requires var booked := WithReservation(w.store, InitialJob(input, atMs));
             var mid := Started(w, input, WithRow(booked, input.jobId, queued), Claiming(queued));
             IsCompletedFrom(mid, |w.actors|, queued, atMs, env, after)
    ensures IsUploaded(w, input, atMs, env, after)
  {
    hide IsSound;
    var job, answer := InitialJob(input, atMs), Done(Some(input.outputStorageKey));
    var booked := WithReservation(w.store, job);
    var mid := Started(w, input, WithRow(booked, input.jobId, queued), Claiming(queued));
    var ready: ImageJob :|
      && IsSound(ready) && ready.state == Ready && ready.request == queued.request
      && ready.attemptCount == queued.attemptCount + 1
      && ready.resultSourceWidth == Some(env.width) && ready.resultSourceHeight == Some(env.height)
      && after == Moved(
                    mid, |w.actors|, AfterPublication(mid.store, queued, ready, atMs),
                    mid.files - {TempOf(queued), InputOf(queued)} + {FinalOf(queued)}, answer);
    assert mid.actors[|w.actors| := answer] == w.actors + [answer];
    assert mid.store.jobs[input.jobId := ready] == booked.jobs[input.jobId := ready];
    assert mid.files - {TempOf(queued), InputOf(queued)} == w.files - {TempOf(job), InputOf(job)};
  }

  /**
   Reserve, enqueue, claim, execute, record, begin, rename, publish, finish: the upload is answered with
   its path, the image is served, and this is all that has changed.
   */
  lemma UploadCompletes(w: World, input: NewImageJob, atMs: int, env: Env) returns (after: World)
    requires IsFreshInput(w.store, input, atMs) && IsSmooth(env, atMs)
    requires HasRoom(w.store, input, env.capacity) && IsGood(w)
    ensures Drives(Next(w, StartUpload(input, atMs)), |w.actors|, env, 9, after)
    ensures IsUploaded(w, input, atMs, env, after)
    ensures IsServed(after, input.outputStorageKey)
  {
    hide Next, IsSmooth, Drives, HasRoom, IsGood, IsSound, CreateImageJob, IsManagedImagePath, IsServed, IsUploaded,
         IsCompletedFrom;
    var i := |w.actors|;
    var w0 := Next(w, StartUpload(input, atMs));
    EventIsGood(w, StartUpload(input, atMs));
    var queued, mid := UploadIsQueued(w, input, atMs, env);
    DrivesStayGood(w0, i, env, 2, mid);
    ReservationKeepsRoom(w.store, input, atMs, queued, env.capacity);
    after := QueuedCompletes(mid, i, queued, atMs, env);
    DrivesCompose(w0, i, env, 2, mid, 7, after);
    UploadedFrom(w, input, atMs, env, queued, after);
  }
}
