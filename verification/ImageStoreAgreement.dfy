/** Ledger, registrations and links over every run of honest store operations. */
module ImageStoreAgreement {
  import opened Outcomes
  import opened ImageJobPolicy
  import opened ImageJobEffects
  import opened ImageStores

  datatype Operation =
    | ReserveOp(input: NewImageJob, atMs: int)
    | TransitionOp(jobId: string, command: Command)
    | PublishOp(jobId: string, command: Command, upload: RegisterUpload, capacity: Capacity)
    | CompensateOp(jobId: string, command: Command)
    | LinkOp(link: LinkInput)
    | UnlinkOp(key: LinkKey, userId: int)
    | AttachOp(userId: int, scope: string, paths: set<string>, atMs: int, expiresAtMs: int)

  function OrElse(s: Store, r: Result<Store, StoreError>): Store {
    match r
    case Ok(next) => next
    case Err(_) => s
  }

  function Execute(s: Store, op: Operation): Store {
    match op
    case ReserveOp(input, atMs) => OrElse(s, Reserve(s, input, atMs))
    case TransitionOp(jobId, c) => OrElse(s, TransitionJob(s, jobId, c))
    case PublishOp(jobId, c, upload, capacity) => OrElse(s, Publish(s, jobId, c, upload, capacity))
    case CompensateOp(jobId, c) => OrElse(s, CompleteCompensation(s, jobId, c))
    case LinkOp(link) => OrElse(s, CreateLink(s, link))
    case UnlinkOp(key, userId) => DeleteLink(s, key, userId)
    case AttachOp(userId, scope, paths, atMs, expiresAtMs) =>
      OrElse(s, MarkAttached(s, userId, scope, paths, atMs, expiresAtMs))
  }

  /**
   The service's own discipline: a fresh random output name of the managed shape for every new job; the
   publishing command only through publishImageJobReady; and a recovery that claims the registration only
   where it exists.
   */
  predicate IsHonest(s: Store, op: Operation) {
    match op
    case ReserveOp(input, _) =>
      input.outputStorageKey !in s.jobIdByOutput && IsManagedImagePath(input.outputStorageKey)
    case TransitionOp(jobId, c) =>
      && !c.action.MarkReady?
      && (c.action.RecoverReady? && c.action.readyRegistrationCommitted ==> HasReadyRegistration(s, jobId))
    case PublishOp(_, c, _, _) => c.action.MarkReady?
    case CompensateOp(_, c) => c.action.MarkCompensated? || c.action.RecoverCompensated?
    case _ => true
  }

  // ---------------------------------------------------------------------------------------------
  // Agreement
  // ---------------------------------------------------------------------------------------------

  /** Every row is sound and both indexes name it. */
  predicate IsIndexed(s: Store) {
    && (forall id | id in s.jobs ::
          && IsSound(s.jobs[id])
          && s.jobs[id].request.jobId == id
          && s.jobs[id].request.requestKey in s.jobIdByRequest
          && s.jobIdByRequest[s.jobs[id].request.requestKey] == id
          && s.jobs[id].request.outputStorageKey in s.jobIdByOutput
          && s.jobIdByOutput[s.jobs[id].request.outputStorageKey] == id
          && IsManagedImagePath(s.jobs[id].request.outputStorageKey))
    && (forall k | k in s.jobIdByRequest ::
          s.jobIdByRequest[k] in s.jobs && s.jobs[s.jobIdByRequest[k]].request.requestKey == k)
    && (forall p | p in s.jobIdByOutput ::
          s.jobIdByOutput[p] in s.jobs && s.jobs[s.jobIdByOutput[p]].request.outputStorageKey == p)
  }

  /** A path is registered exactly when the job that owns it is ready, and to that job's owner. */
  predicate IsRegistered(s: Store) {
    && (forall p | p in s.uploads ::
          && p in s.jobIdByOutput
          && s.jobIdByOutput[p] in s.jobs
          && var job := s.jobs[s.jobIdByOutput[p]];
          && job.state.Ready?
          && job.request.outputStorageKey == p
          && s.uploads[p].path == p
          && s.uploads[p].userId == job.request.userId
          && s.uploads[p].sessionScopeHash == job.request.sessionScopeHash)
    && (forall id | id in s.jobs && s.jobs[id].state.Ready? :: s.jobs[id].request.outputStorageKey in s.uploads)
  }

  /** A link that names a managed image names an attached registration. */
  predicate IsLinked(s: Store) {
    forall k | k in s.links && s.links[k].image.Some? && IsManagedImagePath(s.links[k].image.value) ::
      s.links[k].image.value in s.uploads && s.uploads[s.links[k].image.value].state.Attached?
  }

  predicate Agrees(s: Store) {
    IsIndexed(s) && IsRegistered(s) && IsLinked(s)
  }

  /** A sound row is attachable exactly when it is ready. */
  lemma SoundAttachable(job: ImageJob)
    requires IsSound(job)
    ensures IsAttachableJob(job) <==> job.state.Ready?
  {
    hide IsRequest, IsErrorCode, IsLease;
  }

  /** The store with one row replaced. */
  function WithRow(s: Store, jobId: string, next: ImageJob): Store {
    s.(jobs := s.jobs[jobId := next])
  }

  predicate IsSuccessor(s: Store, jobId: string, next: ImageJob) {
    jobId in s.jobs && IsSound(next) && next.request == s.jobs[jobId].request
  }

  lemma RowChangeKeepsIndex(s: Store, jobId: string, next: ImageJob)
    requires IsIndexed(s) && IsSuccessor(s, jobId, next)
    ensures IsIndexed(WithRow(s, jobId, next))
  {
    hide IsSound, IsManagedImagePath;
  }

  lemma RowChangeKeepsRegistered(s: Store, jobId: string, next: ImageJob)
    requires IsRegistered(s) && IsSuccessor(s, jobId, next)
    requires next.state.Ready? == s.jobs[jobId].state.Ready?
    ensures IsRegistered(WithRow(s, jobId, next))
  {
    hide IsSound, IsManagedImagePath, IsIndexed;
    var changed := WithRow(s, jobId, next);
    forall id | id in changed.jobs && changed.jobs[id].state.Ready?
      ensures changed.jobs[id].request.outputStorageKey in changed.uploads
    {
      assert s.jobs[id].state.Ready? && s.jobs[id].request == changed.jobs[id].request;
    }
  }

  /** `next` is what an honest operation may leave of one row without publishing it. */
  lemma QuietStep(s: Store, jobId: string, next: ImageJob)
    requires Agrees(s) && IsSuccessor(s, jobId, next)
    requires next.state.Ready? == s.jobs[jobId].state.Ready?
    ensures Agrees(WithRow(s, jobId, next))
  {
    hide IsIndexed, IsRegistered, IsSound, IsManagedImagePath;
    RowChangeKeepsIndex(s, jobId, next);
    RowChangeKeepsRegistered(s, jobId, next);
  }

  predicate IsPublication(s: Store, jobId: string, next: ImageJob, upload: Upload) {
    && IsSuccessor(s, jobId, next)
    && next.state.Ready? && !s.jobs[jobId].state.Ready?
    && upload.path == next.request.outputStorageKey && upload.path !in s.uploads
    && upload.userId == next.request.userId && upload.sessionScopeHash == next.request.sessionScopeHash
  }

  function WithPublication(s: Store, jobId: string, next: ImageJob, upload: Upload): Store {
    WithRow(s, jobId, next).(uploads := s.uploads[upload.path := upload])
  }

  lemma PublicationKeepsRegistered(s: Store, jobId: string, next: ImageJob, upload: Upload)
    requires IsRegistered(s) && IsPublication(s, jobId, next, upload)
    requires upload.path in s.jobIdByOutput && s.jobIdByOutput[upload.path] == jobId
    ensures IsRegistered(WithPublication(s, jobId, next, upload))
  {
    hide IsSound, IsManagedImagePath;
  }

  lemma IndexIgnoresUploads(s: Store, uploads: map<string, Upload>)
    requires IsIndexed(s)
    ensures IsIndexed(s.(uploads := uploads))
  {
    hide IsSound, IsManagedImagePath;
  }

  /** A row becomes ready together with the registration of its path. */
  lemma PublishingStep(s: Store, jobId: string, next: ImageJob, upload: Upload)
    requires Agrees(s) && IsPublication(s, jobId, next, upload)
    ensures Agrees(WithPublication(s, jobId, next, upload))
  {
    hide IsIndexed, IsRegistered, IsSound, IsManagedImagePath;
    OwnerOf(s, jobId);
    RowChangeKeepsIndex(s, jobId, next);
    IndexIgnoresUploads(WithRow(s, jobId, next), s.uploads[upload.path := upload]);
    PublicationKeepsRegistered(s, jobId, next, upload);
  }

  lemma OwnerOf(s: Store, jobId: string)
    requires IsIndexed(s) && jobId in s.jobs
    ensures s.jobs[jobId].request.outputStorageKey in s.jobIdByOutput
    ensures s.jobIdByOutput[s.jobs[jobId].request.outputStorageKey] == jobId
    ensures IsManagedImagePath(s.jobs[jobId].request.outputStorageKey)
  {
    hide IsSound, IsManagedImagePath;
  }

  predicate IsFreshRow(s: Store, job: ImageJob) {
    && IsSound(job) && !job.state.Ready?
    && job.request.jobId !in s.jobs && job.request.requestKey !in s.jobIdByRequest
    && job.request.outputStorageKey !in s.jobIdByOutput
    && IsManagedImagePath(job.request.outputStorageKey)
  }

  lemma ReservationKeepsIndex(s: Store, job: ImageJob)
    requires IsIndexed(s) && IsFreshRow(s, job)
    ensures IsIndexed(WithReservation(s, job))
  {
    hide IsSound, IsManagedImagePath;
  }

  lemma ReservationKeepsRegistered(s: Store, job: ImageJob)
    requires IsRegistered(s) && IsFreshRow(s, job)
    ensures IsRegistered(WithReservation(s, job))
  {
    hide IsSound, IsManagedImagePath;
  }

  /** A new row under fresh names. */
  lemma ReservingStep(s: Store, job: ImageJob)
    requires Agrees(s) && IsFreshRow(s, job)
    ensures Agrees(WithReservation(s, job))
  {
    hide IsIndexed, IsRegistered, IsSound, IsManagedImagePath;
    ReservationKeepsIndex(s, job);
    ReservationKeepsRegistered(s, job);
  }

  function WithReservation(s: Store, job: ImageJob): Store {
    var r := job.request;
    s.(
      jobs := s.jobs[r.jobId := job],
      jobIdByRequest := s.jobIdByRequest[r.requestKey := r.jobId],
      jobIdByOutput := s.jobIdByOutput[r.outputStorageKey := r.jobId])
  }

  lemma ReserveKeepsAgreement(s: Store, input: NewImageJob, atMs: int)
    requires Agrees(s) && IsHonest(s, ReserveOp(input, atMs))
    ensures Agrees(Execute(s, ReserveOp(input, atMs)))
  {
    hide IsSound, IsManagedImagePath, DecideReservation, IsIndexed, IsRegistered, IsLinked;
    var decision := DecideReservation(s, input, atMs);
    if decision.Ok? && decision.value.Create? {
      ReservationIsFresh(s, input, atMs);
      ReservingStep(s, decision.value.job);
    }
  }

  lemma ReservationIsFresh(s: Store, input: NewImageJob, atMs: int)
    requires IsIndexed(s)
    requires DecideReservation(s, input, atMs).Ok? && DecideReservation(s, input, atMs).value.Create?
    ensures input.jobId !in s.jobs && input.requestKey !in s.jobIdByRequest
    ensures var job := DecideReservation(s, input, atMs).value.job;
            IsSound(job) && job.request == input && job.state.Requested?
  {
    CreatedJobIsSound(input, atMs);
    hide IsSound, IsManagedImagePath, IsValid;
  }

  lemma TransitionKeepsAgreement(s: Store, jobId: string, c: Command)
    requires Agrees(s) && IsHonest(s, TransitionOp(jobId, c))
    ensures Agrees(Execute(s, TransitionOp(jobId, c)))
  {
    hide IsSound, Transition, IsManagedImagePath, IsLinked;
    if jobId in s.jobs && Transition(s.jobs[jobId], c).Ok? {
      SoundAttachable(s.jobs[jobId]);
      AcceptedIsRowStep(s.jobs[jobId], c);
      QuietStep(s, jobId, Transition(s.jobs[jobId], c).value);
    }
  }

  lemma PublishKeepsAgreement(s: Store, op: Operation)
    requires Agrees(s) && op.PublishOp? && IsHonest(s, op)
    ensures Agrees(Execute(s, op))
  {
    hide IsSound, Transition, IsManagedImagePath, ReadyPaths, ReadyPathsInScope, HasReadyRegistration;
    hide IsIndexed, IsRegistered, IsLinked;
    var r := Publish(s, op.jobId, op.command, op.upload, op.capacity);
    if r.Ok? && r.value != s {
      RowsAreSound(s, op.jobId);
      AcceptedIsRowStep(s.jobs[op.jobId], op.command);
      PublishingStep(s, op.jobId, Transition(s.jobs[op.jobId], op.command).value, Registered(op.upload));
    }
  }

  /** A row that is not ready is neither registered nor named by a link. */
  lemma UnpublishedIsUnseen(s: Store, jobId: string)
    requires Agrees(s) && jobId in s.jobs && !s.jobs[jobId].state.Ready?
    ensures s.jobs[jobId].request.outputStorageKey !in s.uploads
    ensures !IsReferenced(s, s.jobs[jobId].request.outputStorageKey)
    ensures CompensationSafety(s, jobId).Pass?
  {
    hide IsSound, IsManagedImagePath;
  }

  lemma CompensateKeepsAgreement(s: Store, jobId: string, c: Command)
    requires Agrees(s) && IsHonest(s, CompensateOp(jobId, c))
    ensures Agrees(Execute(s, CompensateOp(jobId, c)))
  {
    hide IsSound, Transition, IsManagedImagePath, IsIndexed, IsRegistered, IsLinked, IsReferenced;
    if jobId in s.jobs && Transition(s.jobs[jobId], c).Ok? {
      RowsAreSound(s, jobId);
      AcceptedIsRowStep(s.jobs[jobId], c);
      UnpublishedIsUnseen(s, jobId);
      QuietStep(s, jobId, Transition(s.jobs[jobId], c).value);
    }
  }

  lemma RowsAreSound(s: Store, jobId: string)
    requires IsIndexed(s) && jobId in s.jobs
    ensures IsSound(s.jobs[jobId]) && s.jobs[jobId].request.jobId == jobId
  {
  }

  /** Attaching a registration changes neither whose it is nor what it is for. */
  lemma AttachedAlike(s: Store, path: string, upload: Upload, links: map<LinkKey, Link>)
    requires IsIndexed(s) && IsRegistered(s) && path in s.uploads
    requires
      var before := s.uploads[path];
      upload.path == before.path && upload.userId == before.userId
      && upload.sessionScopeHash == before.sessionScopeHash
    ensures var next := s.(uploads := s.uploads[path := upload], links := links);
            IsIndexed(next) && IsRegistered(next)
  {
    hide IsSound, IsManagedImagePath;
  }

  lemma LinkKeepsAgreement(s: Store, input: LinkInput)
    requires Agrees(s)
    ensures Agrees(Execute(s, LinkOp(input)))
  {
    hide IsSound, IsManagedImagePath, IsIndexed, IsRegistered;
    var next := Execute(s, LinkOp(input));
    if next.uploads == s.uploads {
      LinksAreApart(s, next.links);
      hide IsLedgerReady;
    } else {
      hide IsLedgerReady;
      var path := input.image.value;
      AttachedAlike(s, path, next.uploads[path], next.links);
    }
  }

  lemma LinksAreApart(s: Store, links: map<LinkKey, Link>)
    requires IsIndexed(s) && IsRegistered(s)
    ensures IsIndexed(s.(links := links)) && IsRegistered(s.(links := links))
  {
    hide IsSound, IsManagedImagePath;
  }

  lemma UnlinkKeepsAgreement(s: Store, key: LinkKey, userId: int)
    requires Agrees(s)
    ensures Agrees(Execute(s, UnlinkOp(key, userId)))
  {
    hide IsSound, IsManagedImagePath;
  }

  lemma AttachKeepsAgreement(s: Store, op: Operation)
    requires Agrees(s) && op.AttachOp?
    ensures Agrees(Execute(s, op))
  {
    hide IsSound, IsManagedImagePath, IsOwnedUpload;
  }

  lemma HonestKeepsAgreement(s: Store, op: Operation)
    requires Agrees(s) && IsHonest(s, op)
    ensures Agrees(Execute(s, op))
  {
    hide Agrees, Execute;
    match op {
      case ReserveOp(input, atMs) => ReserveKeepsAgreement(s, input, atMs);
      case TransitionOp(jobId, c) => TransitionKeepsAgreement(s, jobId, c);
      case PublishOp(_, _, _, _) => PublishKeepsAgreement(s, op);
      case CompensateOp(jobId, c) => CompensateKeepsAgreement(s, jobId, c);
      case LinkOp(link) => LinkKeepsAgreement(s, link);
      case UnlinkOp(key, userId) => UnlinkKeepsAgreement(s, key, userId);
      case AttachOp(_, _, _, _, _) => AttachKeepsAgreement(s, op);
    }
  }

  // ---------------------------------------------------------------------------------------------
  // Runs
  // ---------------------------------------------------------------------------------------------

  const EmptyStore := Store(map[], map[], map[], map[], map[])

  function ExecuteAll(s: Store, ops: seq<Operation>): Store {
    if ops == [] then s else Execute(ExecuteAll(s, ops[..|ops| - 1]), ops[|ops| - 1])
  }

  predicate IsHonestRun(s: Store, ops: seq<Operation>) {
    ops != [] ==>
      && IsHonestRun(s, ops[..|ops| - 1])
      && IsHonest(ExecuteAll(s, ops[..|ops| - 1]), ops[|ops| - 1])
  }

  lemma {:induction false} RunsKeepAgreement(s: Store, ops: seq<Operation>)
    requires Agrees(s) && IsHonestRun(s, ops)
    ensures Agrees(ExecuteAll(s, ops))
  {
    hide Agrees, Execute, IsHonest;
    if ops != [] {
      var front := ops[..|ops| - 1];
      RunsKeepAgreement(s, front);
      HonestKeepsAgreement(ExecuteAll(s, front), ops[|ops| - 1]);
    }
  }

  /** What the three stores say about one job and its path. */
  predicate IsCoherent(s: Store, jobId: string)
    requires jobId in s.jobs
  {
    var job := s.jobs[jobId];
    var path := job.request.outputStorageKey;
    && (path in s.uploads <==> job.state.Ready?)
    && (path in s.uploads <==> HasReadyRegistration(s, jobId))
    && (IsReferenced(s, path) ==> path in s.uploads && s.uploads[path].state.Attached?)
    && (InCompensation(job.state) ==> CompensationSafety(s, jobId).Pass?)
  }

  lemma AgreementIsCoherent(s: Store, jobId: string)
    requires Agrees(s) && jobId in s.jobs
    ensures IsCoherent(s, jobId)
  {
    hide IsSound, IsManagedImagePath, IsAttachableJob;
    OwnerOf(s, jobId);
    RowsAreSound(s, jobId);
    SoundAttachable(s.jobs[jobId]);
    if !s.jobs[jobId].state.Ready? {
      UnpublishedIsUnseen(s, jobId);
    }
  }

  /**
   After any honest run: a ledger-owned path is registered exactly when its job is ready; every link
   that names it names a ready job's attached registration; a job under compensation is unreferenced.
   */
  lemma LedgerUploadsAndLinksAgree(ops: seq<Operation>, jobId: string)
    requires IsHonestRun(EmptyStore, ops) && jobId in ExecuteAll(EmptyStore, ops).jobs
    ensures IsCoherent(ExecuteAll(EmptyStore, ops), jobId)
  {
    assert Agrees(EmptyStore);
    hide Execute, Agrees, IsHonest, IsCoherent;
    RunsKeepAgreement(EmptyStore, ops);
    AgreementIsCoherent(ExecuteAll(EmptyStore, ops), jobId);
  }

  // ---------------------------------------------------------------------------------------------
  // The store object
  // ---------------------------------------------------------------------------------------------

  method Listed(paths: set<string>) returns (list: seq<string>)
    ensures (set p | p in list) == paths
  {
    var rest := paths;
    list := [];
    while rest != {}
      invariant rest <= paths && (set p | p in list) == paths - rest
    {
      var p :| p in rest;
      ghost var before := set q | q in list;
      assert (set q | q in list + [p]) == before + {p};
      list, rest := list + [p], rest - {p};
    }
  }

  /** One operation on the object; an honest one keeps its maps in agreement. */
  method Perform(store: ImageStore, op: Operation)
    requires IsHonest(store.View(), op)
    modifies store
    ensures store.View() == Execute(old(store.View()), op)
    ensures Agrees(old(store.View())) ==> Agrees(store.View())
  {
    hide Agrees, IsHonest, DecideReservation, TransitionJob, Publish, CompleteCompensation, CreateLink, MarkAttached;
    hide DeleteLink;
    if Agrees(store.View()) {
      HonestKeepsAgreement(store.View(), op);
    }
    match op {
      case ReserveOp(input, atMs) =>
        ReservationDecides(store.View(), input, atMs);
        var r := store.ReserveImageJob(input, atMs);
      case TransitionOp(jobId, c) =>
        var r := store.TransitionImageJob(jobId, c);
      case PublishOp(jobId, c, upload, capacity) =>
        HonestArguments(store.View(), op);
        var r := store.PublishImageJobReady(jobId, c, upload, capacity);
      case CompensateOp(jobId, c) =>
        HonestArguments(store.View(), op);
        var r := store.CompleteImageJobCompensation(jobId, c);
      case LinkOp(link) =>
        var r := store.AddLink(link);
      case UnlinkOp(key, userId) =>
        var r := store.DeleteOwnedLink(key, userId);
      case AttachOp(userId, scope, paths, atMs, expiresAtMs) =>
        var list := Listed(paths);
        var r := store.MarkUploadsAttached(userId, scope, list, atMs, expiresAtMs);
    }
  }

  lemma HonestArguments(s: Store, op: Operation)
    requires IsHonest(s, op)
    ensures op.PublishOp? ==> op.command.action.MarkReady?
    ensures op.CompensateOp? ==> op.command.action.MarkCompensated? || op.command.action.RecoverCompensated?
  {
  }

  lemma ReservationDecides(s: Store, input: NewImageJob, atMs: int)
    ensures Reserve(s, input, atMs).Ok? <==> DecideReservation(s, input, atMs).Ok?
  {
    hide DecideReservation;
  }

  /**
   The object itself after any honest run: it says that a job has a ready registration exactly when its row
   is ready, and that its compensation is safe whenever the row is in compensation.
   */
  method AskAfter(ops: seq<Operation>, jobId: string) returns (isRegistered: bool, isSafe: bool, row: Option<ImageJob>)
    requires IsHonestRun(EmptyStore, ops)
    ensures row == Lookup(ExecuteAll(EmptyStore, ops).jobs, jobId)
    ensures isRegistered <==> row.Some? && row.value.state.Ready?
    ensures row.Some? && InCompensation(row.value.state) ==> isSafe
  {
    hide Agrees, Execute, IsHonest, HasReadyRegistration, CompensationSafety, IsSound;
    var store := new ImageStore();
    assert Agrees(EmptyStore) by { EmptyAgrees(); }
    for i := 0 to |ops|
      invariant fresh(store) && store.View() == ExecuteAll(EmptyStore, ops[..i]) && Agrees(store.View())
    {
      HonestPrefix(ops, i);
      assert ops[..i + 1][..i] == ops[..i];
      Perform(store, ops[i]);
    }
    assert ops[..|ops|] == ops;
    isRegistered := store.HasReadyImageRegistration(jobId);
    var safety := store.AssertImageJobCompensationSafe(jobId);
    isSafe, row := safety.Pass?, Lookup(store.jobs, jobId);
    if jobId in store.jobs {
      AgreementIsCoherent(store.View(), jobId);
    } else {
      NobodyIsRegistered(store.View(), jobId);
    }
  }

  lemma EmptyAgrees()
    ensures Agrees(EmptyStore)
  {
  }

  lemma NobodyIsRegistered(s: Store, jobId: string)
    requires jobId !in s.jobs
    ensures !HasReadyRegistration(s, jobId)
  {
  }

  lemma {:induction false} HonestPrefix(ops: seq<Operation>, i: nat)
    requires IsHonestRun(EmptyStore, ops) && i < |ops|
    ensures IsHonest(ExecuteAll(EmptyStore, ops[..i]), ops[i])
    decreases |ops|
  {
    hide Execute, IsHonest;
    var front := ops[..|ops| - 1];
    if i < |front| {
      HonestPrefix(front, i);
      assert front[..i] == ops[..i];
    } else {
      assert front == ops[..i];
    }
  }

  /** The recovery that would publish an already registered job is never accepted: there is no such job. */
  lemma RecoverReadyIsDeadCode(s: Store, jobId: string, c: Command)
    requires Agrees(s) && IsHonest(s, TransitionOp(jobId, c)) && c.action.RecoverReady?
    ensures TransitionJob(s, jobId, c).Err?
  {
    hide IsSound, Transition, IsManagedImagePath, IsIndexed, IsRegistered, IsLinked;
    if jobId in s.jobs && Transition(s.jobs[jobId], c).Ok? {
      RowsAreSound(s, jobId);
      SoundAttachable(s.jobs[jobId]);
      AcceptedIsRowStep(s.jobs[jobId], c);
      assert false;
    }
  }

  // ---------------------------------------------------------------------------------------------
  // Capacity
  // ---------------------------------------------------------------------------------------------

  /** Unattached registrations stay within the limits, per owner and session and in total. */
  ghost predicate IsWithin(s: Store, capacity: Capacity) {
    && |ReadyPaths(s)| <= capacity.readyTotal
    && forall userId, scope :: |ReadyPathsInScope(s, userId, scope)| <= capacity.readyPerSession
  }

  predicate UsesCapacity(op: Operation, capacity: Capacity) {
    op.PublishOp? ==> op.capacity == capacity
  }

  lemma SubsetSize<T>(a: set<T>, b: set<T>)
    requires a <= b
    ensures |a| <= |b|
  {
    assert b == a + (b - a);
  }

  /** Fewer unattached registrations are within the same limits. */
  lemma ShrinkingStaysWithin(s: Store, next: Store, capacity: Capacity)
    requires IsWithin(s, capacity)
    requires forall p | p in next.uploads && next.uploads[p].state.ReadyUpload? ::
               p in s.uploads && s.uploads[p] == next.uploads[p]
    ensures IsWithin(next, capacity)
  {
    SubsetSize(ReadyPaths(next), ReadyPaths(s));
    forall userId, scope
      ensures |ReadyPathsInScope(next, userId, scope)| <= capacity.readyPerSession
    {
      SubsetSize(ReadyPathsInScope(next, userId, scope), ReadyPathsInScope(s, userId, scope));
    }
  }

  /** A publication adds its own path and nothing else. */
  lemma PublishAddsOne(s: Store, op: Operation)
    requires op.PublishOp? && Execute(s, op).uploads != s.uploads
    ensures Execute(s, op).uploads == s.uploads[op.upload.path := Registered(op.upload)]
    ensures op.upload.path !in s.uploads
    ensures |ReadyPathsInScope(s, op.upload.userId, op.upload.sessionScopeHash)| < op.capacity.readyPerSession
    ensures |ReadyPaths(s)| < op.capacity.readyTotal
  {
    hide Transition, HasReadyRegistration, ReadyPaths, ReadyPathsInScope, MatchesJob;
  }

  lemma PublishStaysWithin(s: Store, op: Operation)
    requires op.PublishOp? && IsWithin(s, op.capacity)
    ensures IsWithin(Execute(s, op), op.capacity)
  {
    hide Execute;
    var next := Execute(s, op);
    if next.uploads != s.uploads {
      PublishAddsOne(s, op);
      var u := op.upload;
      assert ReadyPaths(next) == ReadyPaths(s) + {u.path};
      forall userId, scope
        ensures |ReadyPathsInScope(next, userId, scope)| <= op.capacity.readyPerSession
      {
        var before := ReadyPathsInScope(s, userId, scope);
        if userId == u.userId && scope == u.sessionScopeHash {
          assert ReadyPathsInScope(next, userId, scope) == before + {u.path};
        } else {
          assert ReadyPathsInScope(next, userId, scope) == before;
        }
      }
    } else {
      ShrinkingStaysWithin(s, next, op.capacity);
    }
  }

  lemma OperationStaysWithin(s: Store, op: Operation, capacity: Capacity)
    requires IsWithin(s, capacity) && UsesCapacity(op, capacity)
    ensures IsWithin(Execute(s, op), capacity)
  {
    if op.PublishOp? {
      PublishStaysWithin(s, op);
    } else {
      hide Transition, DecideReservation, IsOwnedUpload, IsReferenced, IsWithin;
      ShrinkingStaysWithin(s, Execute(s, op), capacity);
    }
  }

  /** The limits passed with every publication hold after any run of publish, attach, link and compensate. */
  lemma {:induction false} RunsStayWithinCapacity(s: Store, ops: seq<Operation>, capacity: Capacity)
    requires IsWithin(s, capacity)
    requires forall i | 0 <= i < |ops| :: UsesCapacity(ops[i], capacity)
    ensures IsWithin(ExecuteAll(s, ops), capacity)
  {
    hide IsWithin, Execute;
    if ops != [] {
      var front := ops[..|ops| - 1];
      assert forall i | 0 <= i < |front| :: front[i] == ops[i];
      RunsStayWithinCapacity(s, front, capacity);
      OperationStaysWithin(ExecuteAll(s, front), ops[|ops| - 1], capacity);
    }
  }
}
