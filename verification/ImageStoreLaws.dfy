/**
 What each store operation promises its callers, said of the rows, registrations and links themselves.
 The laws hold in every store that honest operations can produce.
 */
module ImageStoreLaws {
  import opened Outcomes
  import opened ImageJobPolicy
  import opened ImageJobEffects
  import opened ImageStores
  import opened ImageStoreAgreement

  // ---------------------------------------------------------------------------------------------
  // Attaching
  // ---------------------------------------------------------------------------------------------

  /** The operation names the path at `atMs` for the job's own user and session, to be kept until then. */
  predicate Presents(op: Operation, path: string, job: NewImageJob, atMs: int, expiresAtMs: int) {
    match op
    case LinkOp(link) =>
      && link.image == Some(path) && link.userId == job.userId
      && link.imageSessionScopeHash == Some(job.sessionScopeHash)
      && link.createdAtMs == atMs && link.imageOwnershipExpiresAtMs == Some(expiresAtMs)
    case AttachOp(userId, scope, paths, at, expires) =>
      path in paths && userId == job.userId && scope == job.sessionScopeHash && at == atMs && expires == expiresAtMs
    case _ => false
  }

  function Kept(before: Upload, atMs: int, expiresAtMs: int): Upload {
    Upload(
      before.path, before.userId, before.sessionScopeHash, before.createdAtMs, expiresAtMs, Attached,
      if before.attachedAtMs.Some? then before.attachedAtMs else Some(atMs))
  }

  /** The ready job that owns the path, if there is one. */
  predicate IsReadyPath(s: Store, path: string, jobId: string) {
    && jobId in s.jobs && s.jobs[jobId].state.Ready?
    && s.jobs[jobId].request.outputStorageKey == path
  }

  /** The path may be used by this user in this session now. */
  ghost predicate IsUsable(s: Store, path: string, userId: int, scope: string, atMs: int) {
    && path in s.uploads && atMs < s.uploads[path].expiresAtMs
    && exists jobId :: IsReadyPath(s, path, jobId)
                       && s.jobs[jobId].request.userId == userId && s.jobs[jobId].request.sessionScopeHash == scope
  }

  lemma OwnedMeansUsable(s: Store, path: string, userId: int, scope: string, atMs: int)
    requires Agrees(s)
    ensures IsOwnedUpload(s, path, userId, scope, atMs) <==> IsUsable(s, path, userId, scope, atMs)
  {
    hide IsSound, IsManagedImagePath, IsAttachableJob, IsLinked;
    if path in s.uploads {
      var jobId := s.jobIdByOutput[path];
      assert IsReadyPath(s, path, jobId);
      RowsAreSound(s, jobId);
      SoundAttachable(s.jobs[jobId]);
      forall other | IsReadyPath(s, path, other)
        ensures other == jobId
      {
        OwnerOf(s, other);
      }
    }
  }

  /** A managed image may be linked: usable by this user in this session, and to be kept into the future. */
  ghost predicate IsLinkable(s: Store, input: LinkInput) {
    && input.image.Some? && input.imageSessionScopeHash.Some? && input.imageOwnershipExpiresAtMs.Some?
    && input.createdAtMs < input.imageOwnershipExpiresAtMs.value
    && IsUsable(s, input.image.value, input.userId, input.imageSessionScopeHash.value, input.createdAtMs)
  }

  predicate NamesManagedImage(input: LinkInput) {
    input.image.Some? && IsManagedImagePath(input.image.value)
  }

  /** A link is refused for a taken code, a domain that allows no creation, and an image not linkable. */
  lemma LinkIsAcceptedExactly(s: Store, input: LinkInput)
    requires Agrees(s)
    ensures CreateLink(s, input).Ok? <==>
              input.key !in s.links && input.isCreatable && (NamesManagedImage(input) ==> IsLinkable(s, input))
    ensures CreateLink(s, input).Err? ==>
              CreateLink(s, input).error ==
              if input.key in s.links then DuplicateCode
              else if !input.isCreatable then DomainNotCreatable else UploadUnavailable
  {
    hide Agrees, IsOwnedUpload, IsUsable, IsManagedImagePath, Attach;
    if input.image.Some? && input.imageSessionScopeHash.Some? {
      OwnedMeansUsable(s, input.image.value, input.userId, input.imageSessionScopeHash.value, input.createdAtMs);
    }
  }

  /** An accepted link is stored, its managed image attached, and nothing else changed. */
  lemma LinkIsStored(s: Store, input: LinkInput)
    requires CreateLink(s, input).Ok?
    ensures var next := CreateLink(s, input).value;
            && next == s.(links := next.links, uploads := next.uploads)
            && next.links == s.links[input.key := Link(input.userId, input.image, input.createdAtMs)]
            && (!NamesManagedImage(input) ==> next.uploads == s.uploads)
            && (NamesManagedImage(input) ==>
                  && input.image.value in s.uploads && input.imageOwnershipExpiresAtMs.Some?
                  && var kept := Kept(
                       s.uploads[input.image.value], input.createdAtMs, input.imageOwnershipExpiresAtMs.value);
                     next.uploads == s.uploads[input.image.value := kept])
  {
    hide IsManagedImagePath, IsLedgerReady;
  }

  /** A batch is attached whole, exactly when every one of its paths is usable. */
  lemma BatchIsAcceptedExactly(
    s: Store, userId: int, scope: string, paths: set<string>, atMs: int, expiresAtMs: int)
    requires Agrees(s)
    ensures MarkAttached(s, userId, scope, paths, atMs, expiresAtMs).Ok? <==>
              forall p | p in paths :: IsUsable(s, p, userId, scope, atMs)
    ensures var r := MarkAttached(s, userId, scope, paths, atMs, expiresAtMs);
            r.Err? ==> r.error == UploadUnavailable
  {
    hide Agrees, IsOwnedUpload, IsUsable, Attach;
    forall p | p in paths
      ensures IsOwnedUpload(s, p, userId, scope, atMs) <==> IsUsable(s, p, userId, scope, atMs)
    {
      OwnedMeansUsable(s, p, userId, scope, atMs);
    }
  }

  lemma BatchIsAttached(s: Store, userId: int, scope: string, paths: set<string>, atMs: int, expiresAtMs: int)
    requires MarkAttached(s, userId, scope, paths, atMs, expiresAtMs).Ok?
    ensures var next := MarkAttached(s, userId, scope, paths, atMs, expiresAtMs).value;
            && next == s.(uploads := next.uploads) && next.uploads.Keys == s.uploads.Keys
            && forall p | p in s.uploads ::
                 next.uploads[p] == if p in paths then Kept(s.uploads[p], atMs, expiresAtMs) else s.uploads[p]
  {
    hide IsOwnedUpload;
  }

  /** The owner of a ready job, in the session of its request, is not refused before the registration expires. */
  lemma OwnersAreServed(s: Store, id: string, op: Operation, atMs: int, expiresAtMs: int)
    requires Agrees(s) && id in s.jobs && s.jobs[id].state.Ready?
    requires var path := s.jobs[id].request.outputStorageKey;
             && Presents(op, path, s.jobs[id].request, atMs, expiresAtMs)
             && path in s.uploads && atMs < s.uploads[path].expiresAtMs
    ensures op.LinkOp? && atMs < expiresAtMs && op.link.isCreatable && op.link.key !in s.links ==>
              CreateLink(s, op.link).Ok?
    ensures op.AttachOp? && op.paths == {s.jobs[id].request.outputStorageKey} ==>
              MarkAttached(s, op.userId, op.scope, op.paths, op.atMs, op.expiresAtMs).Ok?
  {
    hide Agrees, CreateLink, MarkAttached, IsManagedImagePath;
    var path := s.jobs[id].request.outputStorageKey;
    assert IsReadyPath(s, path, id);
    match op {
      case LinkOp(link) => LinkIsAcceptedExactly(s, link);
      case AttachOp(userId, scope, paths, at, expires) =>
        BatchIsAcceptedExactly(s, userId, scope, paths, at, expires);
      case _ =>
    }
  }

  // ---------------------------------------------------------------------------------------------
  // Publishing, reserving, compensating
  // ---------------------------------------------------------------------------------------------

  /** The registration that a publication sends is the job's own. */
  predicate IsForJob(upload: RegisterUpload, job: NewImageJob) {
    && upload.path == job.outputStorageKey && upload.userId == job.userId
    && upload.sessionScopeHash == job.sessionScopeHash && upload.expiresAtMs == job.ownershipExpiresAtMs
  }

  /** There is room for one more unattached registration of this user in this session, and in all. */
  predicate HasRoom(uploads: map<string, Upload>, userId: int, scope: string, capacity: Capacity) {
    && |set p | p in uploads && uploads[p].state == ReadyUpload && uploads[p].userId == userId
                && uploads[p].sessionScopeHash == scope|
       < capacity.readyPerSession
    && |set p | p in uploads && uploads[p].state == ReadyUpload| < capacity.readyTotal
  }

  /**
   A publication goes through exactly for a ready row, which it leaves alone, and for a row that permits
   the command, with the row's own registration and room for it; then the row and the registration change
   together and nothing else does.
   */
  lemma PublicationIsExact(s: Store, jobId: string, c: Command, upload: RegisterUpload, capacity: Capacity)
    requires Agrees(s) && c.action.MarkReady?
    ensures var r := Publish(s, jobId, c, upload, capacity);
            && (r.Ok? <==>
                  && jobId in s.jobs
                  && (|| s.jobs[jobId].state.Ready?
                      || (&& IsForJob(upload, s.jobs[jobId].request)
                          && HasRoom(s.uploads, upload.userId, upload.sessionScopeHash, capacity)
                          && Transition(s.jobs[jobId], c).Ok?)))
            && (r.Ok? && s.jobs[jobId].state.Ready? ==> r.value == s)
            && (r.Ok? && !s.jobs[jobId].state.Ready? ==>
                  && r.value.jobs == s.jobs[jobId := Transition(s.jobs[jobId], c).value]
                  && r.value.uploads == s.uploads[
                    upload.path := Upload(
                      upload.path, upload.userId, upload.sessionScopeHash, upload.createdAtMs,
                      upload.expiresAtMs, ReadyUpload, None)]
                  && r.value == s.(jobs := r.value.jobs, uploads := r.value.uploads))
  {
    hide Agrees, Transition, IsSound, IsAttachableJob, IsReferenced, HasReadyRegistration;
    if jobId in s.jobs {
      ReadyRowsAreRegistered(s, jobId);
      RoomIsCounted(s, upload, capacity);
    }
    hide ReadyPaths, ReadyPathsInScope, HasRoom;
  }

  lemma ReadyRowsAreRegistered(s: Store, jobId: string)
    requires Agrees(s) && jobId in s.jobs
    ensures s.jobs[jobId].state.Ready? <==> s.jobs[jobId].request.outputStorageKey in s.uploads
    ensures s.jobs[jobId].state.Ready? <==> HasReadyRegistration(s, jobId)
  {
    AgreementIsCoherent(s, jobId);
    hide Agrees, HasReadyRegistration, CompensationSafety, IsReferenced;
  }

  lemma RoomIsCounted(s: Store, upload: RegisterUpload, capacity: Capacity)
    ensures HasRoom(s.uploads, upload.userId, upload.sessionScopeHash, capacity) <==>
              && |ReadyPathsInScope(s, upload.userId, upload.sessionScopeHash)| < capacity.readyPerSession
              && |ReadyPaths(s)| < capacity.readyTotal
  {
    var uploads := s.uploads;
    assert ReadyPaths(s) == set p | p in uploads && uploads[p].state == ReadyUpload;
    assert ReadyPathsInScope(s, upload.userId, upload.sessionScopeHash) ==
           set p | p in uploads && uploads[p].state == ReadyUpload && uploads[p].userId == upload.userId
                   && uploads[p].sessionScopeHash == upload.sessionScopeHash;
  }

  /** The five fields by which a repeated request is recognised. */
  predicate IsRepeat(stored: NewImageJob, input: NewImageJob) {
    && stored.requestKey == input.requestKey && stored.payloadHash == input.payloadHash
    && stored.domainId == input.domainId && stored.userId == input.userId
    && stored.sessionScopeHash == input.sessionScopeHash
  }

  predicate IsKnownKey(s: Store, requestKey: string) {
    exists id :: id in s.jobs && s.jobs[id].request.requestKey == requestKey
  }

  lemma KnownKeysAreIndexed(s: Store, input: NewImageJob)
    requires Agrees(s)
    ensures IsKnownKey(s, input.requestKey) <==> input.requestKey in s.jobIdByRequest
    ensures forall id | id in s.jobs ::
              IsValid(s.jobs[id]) && s.jobs[id].request.jobId == id &&
              (s.jobs[id].request.requestKey == input.requestKey ==>
                 input.requestKey in s.jobIdByRequest && s.jobIdByRequest[input.requestKey] == id)
  {
    hide IsManagedImagePath, IsRegistered, IsLinked, IsConsistent, IsValid;
  }

  /** The request key stands for one job: repeated, it gets that job's row, and for another request nothing. */
  lemma RepeatedRequestIsReused(s: Store, input: NewImageJob, atMs: int, id: string)
    requires Agrees(s) && id in s.jobs && s.jobs[id].request.requestKey == input.requestKey
    ensures DecideReservation(s, input, atMs) ==
              if CreateImageJob(input, atMs).Err? then Err(InvalidJob)
              else if input.jobId in s.jobs && input.jobId != id then Err(IdentitySplitBrain)
              else if !IsRepeat(s.jobs[id].request, input) then Err(RequestKeyConflict)
              else Ok(Reuse(s.jobs[id]))
    ensures DecideReservation(s, input, atMs).Ok? ==> Reserve(s, input, atMs) == Ok(s)
  {
    hide Agrees, IsValid, CreateImageJob, IsKnownKey;
    KnownKeysAreIndexed(s, input);
    CreationFailsAsInvalid(input, atMs);
  }

  lemma CreationFailsAsInvalid(input: NewImageJob, atMs: int)
    ensures CreateImageJob(input, atMs).Err? ==> CreateImageJob(input, atMs).error == InvalidJob
    ensures CreateImageJob(input, atMs).Ok? ==>
              && var job := CreateImageJob(input, atMs).value;
                 && job.request == input && job.state == Requested && job.version == 0
                 && job.createdAtMs == job.updatedAtMs == atMs
  {
    hide IsValid;
  }

  lemma KeyOfRow(s: Store, input: NewImageJob)
    requires !IsKnownKey(s, input.requestKey)
    ensures input.jobId in s.jobs ==> s.jobs[input.jobId].request.requestKey != input.requestKey
  {
  }

  /** A new key gets a row of its own, unless the job id is taken; only then does a reservation change the store. */
  lemma NewRequestGetsRow(s: Store, input: NewImageJob, atMs: int)
    requires Agrees(s) && !IsKnownKey(s, input.requestKey)
    ensures DecideReservation(s, input, atMs) ==
              if CreateImageJob(input, atMs).Err? then Err(InvalidJob)
              else if input.jobId in s.jobs then Err(JobIdConflict)
              else Ok(Create(CreateImageJob(input, atMs).value))
    ensures DecideReservation(s, input, atMs).Ok? ==>
              Reserve(s, input, atMs) == Ok(WithReservation(s, CreateImageJob(input, atMs).value))
  {
    hide Agrees, IsValid, CreateImageJob, IsKnownKey;
    KnownKeysAreIndexed(s, input);
    CreationFailsAsInvalid(input, atMs);
    KeyOfRow(s, input);
  }

  /**
   The safety check passes exactly for a known job whose path is neither attached nor named by a link; a
   completed compensation replaces the row and, as no such path is registered, nothing else.
   */
  lemma CompensationIsExact(s: Store, jobId: string, c: Command)
    requires Agrees(s) && (c.action.MarkCompensated? || c.action.RecoverCompensated?)
    ensures CompleteCompensation(s, jobId, c).Ok? <==> jobId in s.jobs && Transition(s.jobs[jobId], c).Ok?
    ensures CompleteCompensation(s, jobId, c).Ok? ==>
              CompleteCompensation(s, jobId, c).value == WithRow(s, jobId, Transition(s.jobs[jobId], c).value)
  {
    hide Agrees, Transition, CompensationSafety;
    if jobId in s.jobs {
      if Transition(s.jobs[jobId], c).Ok? {
        ReadyRowsStayReady(s, jobId, c);
        UnpublishedIsUnseen(s, jobId);
      }
    }
    assert jobId !in s.jobs ==> CompensationSafety(s, jobId).Blocked? by { UnknownIsBlocked(s, jobId); }
  }

  lemma UnknownIsBlocked(s: Store, jobId: string)
    ensures jobId !in s.jobs ==> CompensationSafety(s, jobId) == Blocked(JobNotFound)
  {
  }

  lemma ReadyRowsStayReady(s: Store, jobId: string, c: Command)
    requires Agrees(s) && jobId in s.jobs && Transition(s.jobs[jobId], c).Ok?
    ensures !s.jobs[jobId].state.Ready?
  {
    RowsAreSound(s, jobId);
    AcceptedIsRowStep(s.jobs[jobId], c);
    hide Agrees, Transition, IsSound;
  }

  // ---------------------------------------------------------------------------------------------
  // What one honest operation can change
  // ---------------------------------------------------------------------------------------------

  /** A registration stays for good and changes only by being attached for its own user and session, in time. */
  lemma RegistrationsChangeByOwners(s: Store, op: Operation, id: string)
    requires Agrees(s) && IsHonest(s, op) && id in s.jobs
    requires IsReadyPath(s, s.jobs[id].request.outputStorageKey, id)
    requires s.jobs[id].request.outputStorageKey in s.uploads
    ensures var path := s.jobs[id].request.outputStorageKey;
            var next := Execute(s, op).uploads;
            && path in next
            && (next[path] == s.uploads[path] || IsAttachedBy(op, s.uploads[path], next[path], s.jobs[id].request))
  {
    hide Agrees, IsHonest, Execute, IsSound;
    match op {
      case ReserveOp(_, _) => QuietOperation(s, op);
      case TransitionOp(_, _) => QuietOperation(s, op);
      case UnlinkOp(_, _) => QuietOperation(s, op);
      case CompensateOp(_, _) => CompensationLeavesUploads(s, op);
      case PublishOp(_, _, _, _) => PublicationLeavesOthers(s, op, s.jobs[id].request.outputStorageKey);
      case LinkOp(_) => LinkAttaches(s, op, id);
      case AttachOp(_, _, _, _, _) => BatchAttaches(s, op, id);
    }
  }

  ghost predicate IsAttachedBy(op: Operation, before: Upload, next: Upload, job: NewImageJob) {
    exists atMs: int, expiresAtMs: int ::
      && Presents(op, before.path, job, atMs, expiresAtMs)
      && atMs < before.expiresAtMs && next == Kept(before, atMs, expiresAtMs)
      && (op.LinkOp? ==> atMs < expiresAtMs)
  }

  lemma QuietOperation(s: Store, op: Operation)
    requires op.ReserveOp? || op.TransitionOp? || op.UnlinkOp?
    ensures Execute(s, op).uploads == s.uploads
  {
    hide Transition, DecideReservation;
  }

  lemma CompensationLeavesUploads(s: Store, op: Operation)
    requires Agrees(s) && IsHonest(s, op) && op.CompensateOp?
    ensures Execute(s, op).uploads == s.uploads
  {
    hide Agrees, CompleteCompensation, Transition, IsHonest;
    HonestArguments(s, op);
    CompensationIsExact(s, op.jobId, op.command);
  }

  lemma PublicationLeavesOthers(s: Store, op: Operation, path: string)
    requires op.PublishOp? && path in s.uploads
    ensures path in Execute(s, op).uploads && Execute(s, op).uploads[path] == s.uploads[path]
  {
    hide Execute;
    if Execute(s, op).uploads != s.uploads {
      PublishAddsOne(s, op);
    }
  }

  lemma LinkAttaches(s: Store, op: Operation, id: string)
    requires Agrees(s) && op.LinkOp? && id in s.jobs
    requires IsReadyPath(s, s.jobs[id].request.outputStorageKey, id)
    requires s.jobs[id].request.outputStorageKey in s.uploads
    ensures var path := s.jobs[id].request.outputStorageKey;
            var next := Execute(s, op).uploads;
            && path in next
            && (next[path] == s.uploads[path] || IsAttachedBy(op, s.uploads[path], next[path], s.jobs[id].request))
  {
    hide Agrees, CreateLink, IsManagedImagePath, IsUsable;
    var path := s.jobs[id].request.outputStorageKey;
    var input := op.link;
    LinkIsAcceptedExactly(s, input);
    if CreateLink(s, input).Ok? {
      LinkIsStored(s, input);
      if NamesManagedImage(input) && input.image == Some(path) {
        UsableIsOwn(s, path, id, input.userId, input.imageSessionScopeHash.value, input.createdAtMs);
        assert Presents(
            op, s.uploads[path].path, s.jobs[id].request, input.createdAtMs, input.imageOwnershipExpiresAtMs.value);
      }
    }
  }

  lemma UsableIsOwn(s: Store, path: string, id: string, userId: int, scope: string, atMs: int)
    requires Agrees(s) && IsReadyPath(s, path, id) && IsUsable(s, path, userId, scope, atMs)
    ensures s.jobs[id].request.userId == userId && s.jobs[id].request.sessionScopeHash == scope
    ensures atMs < s.uploads[path].expiresAtMs && s.uploads[path].path == path
  {
    hide IsSound, IsManagedImagePath, IsLinked;
    var owner :| IsReadyPath(s, path, owner)
                 && s.jobs[owner].request.userId == userId && s.jobs[owner].request.sessionScopeHash == scope;
    OwnerOf(s, owner);
    OwnerOf(s, id);
  }

  lemma BatchAttaches(s: Store, op: Operation, id: string)
    requires Agrees(s) && op.AttachOp? && id in s.jobs
    requires IsReadyPath(s, s.jobs[id].request.outputStorageKey, id)
    requires s.jobs[id].request.outputStorageKey in s.uploads
    ensures var path := s.jobs[id].request.outputStorageKey;
            var next := Execute(s, op).uploads;
            && path in next
            && (next[path] == s.uploads[path] || IsAttachedBy(op, s.uploads[path], next[path], s.jobs[id].request))
  {
    hide Agrees, MarkAttached, IsUsable;
    var path := s.jobs[id].request.outputStorageKey;
    BatchIsAcceptedExactly(s, op.userId, op.scope, op.paths, op.atMs, op.expiresAtMs);
    if MarkAttached(s, op.userId, op.scope, op.paths, op.atMs, op.expiresAtMs).Ok? {
      BatchIsAttached(s, op.userId, op.scope, op.paths, op.atMs, op.expiresAtMs);
      if path in op.paths {
        UsableIsOwn(s, path, id, op.userId, op.scope, op.atMs);
        assert Presents(op, s.uploads[path].path, s.jobs[id].request, op.atMs, op.expiresAtMs);
      }
    }
  }

  /** Links come by an accepted link operation of that key and go by their owner's hand; none is changed. */
  lemma LinksChangeByOwners(s: Store, op: Operation, key: LinkKey)
    ensures var next := Execute(s, op).links;
            && (key in s.links ==> (key in next <==> op != UnlinkOp(key, s.links[key].userId)))
            && (key in s.links && key in next ==> next[key] == s.links[key])
            && (key !in s.links && key in next ==>
                  && op.LinkOp? && op.link.key == key && op.link.isCreatable
                  && next[key] == Link(op.link.userId, op.link.image, op.link.createdAtMs))
  {
    hide Transition, DecideReservation, IsOwnedUpload, IsReferenced, HasReadyRegistration, IsManagedImagePath;
    hide ReadyPaths, ReadyPathsInScope, MatchesJob;
  }

  /** A row changes only by a permitted command addressed to it, and appears only by its own reservation. */
  lemma RowsChangeByCommands(s: Store, op: Operation, id: string)
    requires Agrees(s) && IsHonest(s, op)
    ensures var next := Execute(s, op).jobs;
            && (id in s.jobs ==>
                  && id in next
                  && (|| next[id] == s.jobs[id]
                      || (HasCommand(op, id) && Transition(s.jobs[id], op.command) == Ok(next[id]))))
            && (id !in s.jobs && id in next ==>
                  && op.ReserveOp? && op.input.jobId == id && CreateImageJob(op.input, op.atMs) == Ok(next[id]))
  {
    hide Agrees, Transition, IsHonest, IsOwnedUpload, IsReferenced, HasReadyRegistration, IsManagedImagePath,
         ReadyPaths, ReadyPathsInScope, MatchesJob, DecideReservation, CompensationSafety, CreateImageJob;
    if op.CompensateOp? {
      UnknownIsBlocked(s, op.jobId);
    } else if op.ReserveOp? {
      if IsKnownKey(s, op.input.requestKey) {
        var known :| known in s.jobs && s.jobs[known].request.requestKey == op.input.requestKey;
        RepeatedRequestIsReused(s, op.input, op.atMs, known);
      } else {
        NewRequestGetsRow(s, op.input, op.atMs);
        CreationFailsAsInvalid(op.input, op.atMs);
      }
    }
  }

  predicate HasCommand(op: Operation, id: string) {
    (op.TransitionOp? || op.PublishOp? || op.CompensateOp?) && op.jobId == id
  }

  // ---------------------------------------------------------------------------------------------
  // Whose registrations there are, over whole runs
  // ---------------------------------------------------------------------------------------------

  /**
   As published, never attached; or attached first by the i-th operation and last by the j-th, each of
   which presented the job's own user and session while the registration had not expired.
   */
  ghost predicate IsRightlyHeld(ops: seq<Operation>, job: NewImageJob, upload: Upload) {
    && upload.path == job.outputStorageKey && upload.userId == job.userId
    && upload.sessionScopeHash == job.sessionScopeHash
    && if upload.state.ReadyUpload? then
         upload.attachedAtMs.None? && upload.expiresAtMs == job.ownershipExpiresAtMs
       else
         && upload.attachedAtMs.Some?
         && (exists i: nat, expiresAtMs: int :: IsTimely(ops, i, job, upload.attachedAtMs.value, expiresAtMs))
         && (exists j: nat, atMs: int :: IsTimely(ops, j, job, atMs, upload.expiresAtMs))
  }

  /** The i-th operation presents the path in its owner's name, before the registration it finds expires. */
  ghost predicate IsTimely(ops: seq<Operation>, i: nat, job: NewImageJob, atMs: int, expiresAtMs: int) {
    && i < |ops| && Presents(ops[i], job.outputStorageKey, job, atMs, expiresAtMs)
    && var found := ExecuteAll(EmptyStore, ops[..i]).uploads;
       job.outputStorageKey in found && atMs < found[job.outputStorageKey].expiresAtMs
  }

  lemma TimelyStays(ops: seq<Operation>, op: Operation, i: nat, job: NewImageJob, atMs: int, expiresAtMs: int)
    requires IsTimely(ops, i, job, atMs, expiresAtMs)
    ensures IsTimely(ops + [op], i, job, atMs, expiresAtMs)
  {
    assert (ops + [op])[..i] == ops[..i];
  }

  lemma HeldStays(ops: seq<Operation>, op: Operation, job: NewImageJob, upload: Upload)
    requires IsRightlyHeld(ops, job, upload)
    ensures IsRightlyHeld(ops + [op], job, upload)
  {
    hide IsTimely;
    if upload.state.Attached? {
      var i: nat, expiresAtMs: int :| IsTimely(ops, i, job, upload.attachedAtMs.value, expiresAtMs);
      TimelyStays(ops, op, i, job, upload.attachedAtMs.value, expiresAtMs);
      var j: nat, atMs: int :| IsTimely(ops, j, job, atMs, upload.expiresAtMs);
      TimelyStays(ops, op, j, job, atMs, upload.expiresAtMs);
    }
  }

  lemma PublishedIsHeld(ops: seq<Operation>, job: NewImageJob, createdAtMs: int)
    ensures IsRightlyHeld(ops, job, Upload(
                            job.outputStorageKey, job.userId, job.sessionScopeHash, createdAtMs,
                            job.ownershipExpiresAtMs, ReadyUpload, None))
  {
  }

  lemma AttachedIsHeld(ops: seq<Operation>, op: Operation, job: NewImageJob, before: Upload, next: Upload)
    requires IsRightlyHeld(ops, job, before) && IsAttachedBy(op, before, next, job)
    requires var found := ExecuteAll(EmptyStore, ops).uploads;
             job.outputStorageKey in found && found[job.outputStorageKey] == before
    ensures IsRightlyHeld(ops + [op], job, next)
  {
    var atMs: int, expiresAtMs: int :|
      && Presents(op, before.path, job, atMs, expiresAtMs)
      && atMs < before.expiresAtMs && next == Kept(before, atMs, expiresAtMs);
    assert (ops + [op])[..|ops|] == ops && (ops + [op])[|ops|] == op;
    hide ExecuteAll;
    assert IsTimely(ops + [op], |ops|, job, atMs, expiresAtMs);
    hide IsTimely;
    if before.attachedAtMs.Some? {
      var i: nat, e: int :| IsTimely(ops, i, job, before.attachedAtMs.value, e);
      TimelyStays(ops, op, i, job, before.attachedAtMs.value, e);
    }
  }

  /**
   Over every honest run: a registration is the job's own, and it became attached, and got the expiry it
   has, only by operations that presented exactly the user and the session of the job's request in time.
   */
  lemma {:induction false} RegistrationsAreRightlyHeld(ops: seq<Operation>, id: string)
    requires IsHonestRun(EmptyStore, ops)
    requires var s := ExecuteAll(EmptyStore, ops);
             id in s.jobs && s.jobs[id].request.outputStorageKey in s.uploads
    ensures var s := ExecuteAll(EmptyStore, ops);
            IsRightlyHeld(ops, s.jobs[id].request, s.uploads[s.jobs[id].request.outputStorageKey])
  {
    hide Agrees, Execute, IsHonest, IsRightlyHeld, IsAttachedBy;
    EmptyAgrees();
    var s := ExecuteAll(EmptyStore, ops);
    if ops != [] {
      var front, op := ops[..|ops| - 1], ops[|ops| - 1];
      var before := ExecuteAll(EmptyStore, front);
      assert front + [op] == ops;
      RunsKeepAgreement(EmptyStore, front);
      var path := s.jobs[id].request.outputStorageKey;
      RowsChangeByCommands(before, op, id);
      if id in before.jobs && path in before.uploads {
        RequestsStay(before, op, id);
        RegistrationsAreRightlyHeld(front, id);
        ReadyRowsAreRegistered(before, id);
        RegistrationsChangeByOwners(before, op, id);
        if s.uploads[path] == before.uploads[path] {
          HeldStays(front, op, before.jobs[id].request, before.uploads[path]);
        } else {
          AttachedIsHeld(front, op, before.jobs[id].request, before.uploads[path], s.uploads[path]);
        }
      } else {
        NewRegistrationsAreOwn(before, op, id);
        PublishedIsHeld(ops, s.jobs[id].request, op.upload.createdAtMs);
      }
    }
  }

  lemma IndexedRowsAreSound(s: Store, id: string)
    requires Agrees(s) && id in s.jobs
    ensures IsSound(s.jobs[id])
  {
    RowsAreSound(s, id);
  }

  lemma RequestsStay(s: Store, op: Operation, id: string)
    requires Agrees(s) && IsHonest(s, op) && id in s.jobs && id in Execute(s, op).jobs
    ensures Execute(s, op).jobs[id].request == s.jobs[id].request
  {
    hide Agrees, IsHonest, Execute, Transition, IsSound;
    RowsChangeByCommands(s, op, id);
    IndexedRowsAreSound(s, id);
    if HasCommand(op, id) && Transition(s.jobs[id], op.command).Ok? {
      AcceptedIsRowStep(s.jobs[id], op.command);
    }
  }

  lemma UploadsAppearByPublication(s: Store, op: Operation, path: string)
    requires path !in s.uploads && path in Execute(s, op).uploads
    ensures op.PublishOp? && op.jobId in s.jobs && op.upload.path == path
    ensures IsForJob(op.upload, s.jobs[op.jobId].request)
    ensures Execute(s, op).uploads[path] == Upload(
              path, op.upload.userId, op.upload.sessionScopeHash, op.upload.createdAtMs, op.upload.expiresAtMs,
              ReadyUpload, None)
  {
    hide Transition, DecideReservation, IsLedgerReady, IsReferenced, HasReadyRegistration, IsManagedImagePath,
         ReadyPaths, ReadyPathsInScope;
  }

  /** A path appears among the registrations only by the publication of its own job, as that job's own. */
  lemma NewRegistrationsAreOwn(s: Store, op: Operation, id: string)
    requires Agrees(s) && IsHonest(s, op)
    requires var next := Execute(s, op);
             && id in next.jobs && next.jobs[id].request.outputStorageKey in next.uploads
             && !(id in s.jobs && next.jobs[id].request.outputStorageKey in s.uploads)
    ensures var next := Execute(s, op);
            var job := next.jobs[id].request;
            && op.PublishOp? && op.jobId == id && id in s.jobs
            && next.uploads[job.outputStorageKey] == Upload(
                 job.outputStorageKey, job.userId, job.sessionScopeHash, op.upload.createdAtMs,
                 job.ownershipExpiresAtMs, ReadyUpload, None)
  {
    hide Agrees, IsHonest, Execute, CreateImageJob;
    var next := Execute(s, op);
    var path := next.jobs[id].request.outputStorageKey;
    RowsChangeByCommands(s, op, id);
    if id in s.jobs {
      RequestsStay(s, op, id);
      UploadsAppearByPublication(s, op, path);
      SameOutputIsSameJob(s, id, op.jobId);
    } else {
      CreationFailsAsInvalid(op.input, op.atMs);
      QuietOperation(s, op);
      FreshOutputIsUnregistered(s, op);
      assert false;
    }
  }

  lemma SameOutputIsSameJob(s: Store, id: string, other: string)
    requires Agrees(s) && id in s.jobs && other in s.jobs
    requires s.jobs[id].request.outputStorageKey == s.jobs[other].request.outputStorageKey
    ensures id == other
  {
    OwnerOf(s, id);
    OwnerOf(s, other);
    hide Agrees;
  }

  lemma FreshOutputIsUnregistered(s: Store, op: Operation)
    requires Agrees(s) && op.ReserveOp? && IsHonest(s, op)
    ensures op.input.outputStorageKey !in s.uploads
  {
    hide IsIndexed, IsLinked, IsManagedImagePath;
  }
}
