/**
 The stores behind the image protocol: the ledger with its two indexes, the upload registrations and the
 links. Each operation is one atomic step, as the MariaDB transactions make it; the functions over
 `Store` say what it does and the class `ImageStore` does it on its maps.
 */
module ImageStores {
  import opened Outcomes
  import opened ImageJobPolicy

  datatype UploadState = ReadyUpload | Attached

  datatype Upload = Upload(
    path: string,
    userId: int,
    sessionScopeHash: string,
    createdAtMs: int,
    expiresAtMs: int,
    state: UploadState,
    attachedAtMs: Option<int>)

  datatype RegisterUpload = RegisterUpload(
    path: string, userId: int, sessionScopeHash: string, createdAtMs: int, expiresAtMs: int)

  datatype Capacity = Capacity(readyPerSession: int, readyTotal: int)

  datatype LinkKey = LinkKey(domainId: int, code: string)

  datatype Link = Link(userId: int, image: Option<string>, createdAtMs: int)

  /** `isCreatable`: the domain of the link is known, active and allows creation. */
  datatype LinkInput = LinkInput(
    key: LinkKey,
    isCreatable: bool,
    userId: int,
    image: Option<string>,
    imageSessionScopeHash: Option<string>,
    imageOwnershipExpiresAtMs: Option<int>,
    createdAtMs: int)

  datatype Store = Store(
    jobs: map<string, ImageJob>,
    jobIdByRequest: map<string, string>,
    jobIdByOutput: map<string, string>,
    uploads: map<string, Upload>,
    links: map<LinkKey, Link>)

  datatype StoreError =
    | Policy(error: PolicyError)
    | JobNotFound
    | ReadyRegistrationMissing
    | RegistrationMismatch
    | DuplicateUploadPath
    | SessionUploadLimit
    | GlobalUploadLimit
    | ImageAttached
    | ImageReferenced
    | DuplicateCode
    | DomainNotCreatable
    | UploadUnavailable

  // ---------------------------------------------------------------------------------------------
  // Reading
  // ---------------------------------------------------------------------------------------------

  function Lookup<K, V>(m: map<K, V>, k: K): Option<V> {
    if k in m then Some(m[k]) else None
  }

  /** `uploads/` + sixteen hexadecimal digits + an image extension. */
  predicate IsManagedImagePath(path: string) {
    && 28 <= |path| <= 29
    && path[..8] == "uploads/"
    && (forall i :: 8 <= i < 24 ==> IsLowerHex(path[i]))
    && path[24..] in {".jpg", ".png", ".gif", ".webp"}
  }

  predicate IsAttachableJob(job: ImageJob) {
    IsAttachable(job) == Ok(true)
  }

  /** #isLedgerReadyForOutput: a path the ledger does not own is nobody's business here. */
  predicate IsLedgerReady(s: Store, path: string, userId: int) {
    path in s.jobIdByOutput ==>
      && s.jobIdByOutput[path] in s.jobs
      && s.jobs[s.jobIdByOutput[path]].request.userId == userId
      && IsAttachableJob(s.jobs[s.jobIdByOutput[path]])
  }

  predicate IsOwnedUpload(s: Store, path: string, userId: int, scope: string, atMs: int) {
    && path in s.uploads
    && s.uploads[path].userId == userId
    && s.uploads[path].sessionScopeHash == scope
    && atMs < s.uploads[path].expiresAtMs
    && IsLedgerReady(s, path, userId)
  }

  function ReadyPaths(s: Store): set<string> {
    set p | p in s.uploads && s.uploads[p].state.ReadyUpload?
  }

  function ReadyPathsInScope(s: Store, userId: int, scope: string): set<string> {
    set p | p in s.uploads && s.uploads[p].state.ReadyUpload?
            && s.uploads[p].userId == userId && s.uploads[p].sessionScopeHash == scope
  }

  /** hasReadyImageRegistration. */
  predicate HasReadyRegistration(s: Store, jobId: string) {
    && jobId in s.jobs
    && IsAttachableJob(s.jobs[jobId])
    && var job := s.jobs[jobId].request;
    && job.outputStorageKey in s.uploads
    && s.uploads[job.outputStorageKey].userId == job.userId
    && s.uploads[job.outputStorageKey].sessionScopeHash == job.sessionScopeHash
  }

  predicate IsReferenced(s: Store, path: string) {
    exists k :: k in s.links && s.links[k].image == Some(path)
  }

  /** assertImageJobCompensationSafe. */
  function CompensationSafety(s: Store, jobId: string): Guard<StoreError> {
    if jobId !in s.jobs then Blocked(JobNotFound)
    else
      var path := s.jobs[jobId].request.outputStorageKey;
      if path in s.uploads && s.uploads[path].state.Attached? then Blocked(ImageAttached)
      else if IsReferenced(s, path) then Blocked(ImageReferenced)
      else Pass
  }

  // ---------------------------------------------------------------------------------------------
  // Writing: a thrown error leaves the store as it was
  // ---------------------------------------------------------------------------------------------

  function DecideReservation(s: Store, input: NewImageJob, atMs: int): Result<Creation, PolicyError> {
    var requestJobId := Lookup(s.jobIdByRequest, input.requestKey);
    DecideImageJobCreation(
      input,
      if requestJobId.None? then None else Lookup(s.jobs, requestJobId.value),
      Lookup(s.jobs, input.jobId),
      atMs)
  }

  function Reserve(s: Store, input: NewImageJob, atMs: int): Result<Store, StoreError> {
    match DecideReservation(s, input, atMs)
    case Err(e) => Err(Policy(e))
    case Ok(Reuse(_)) => Ok(s)
    case Ok(Create(job)) =>
      Ok(s.(
           jobs := s.jobs[job.request.jobId := job],
           jobIdByRequest := s.jobIdByRequest[job.request.requestKey := job.request.jobId],
           jobIdByOutput := s.jobIdByOutput[job.request.outputStorageKey := job.request.jobId]))
  }

  function TransitionJob(s: Store, jobId: string, c: Command): Result<Store, StoreError> {
    if jobId !in s.jobs then Err(JobNotFound)
    else
      match Transition(s.jobs[jobId], c)
      case Err(e) => Err(Policy(e))
      case Ok(next) => Ok(s.(jobs := s.jobs[jobId := next]))
  }

  predicate MatchesJob(job: NewImageJob, upload: RegisterUpload) {
    && upload.path == job.outputStorageKey
    && upload.userId == job.userId
    && upload.sessionScopeHash == job.sessionScopeHash
    && upload.expiresAtMs == job.ownershipExpiresAtMs
  }

  function Registered(upload: RegisterUpload): Upload {
    Upload(
      upload.path, upload.userId, upload.sessionScopeHash, upload.createdAtMs, upload.expiresAtMs,
      ReadyUpload, None)
  }

  function Publish(s: Store, jobId: string, c: Command, upload: RegisterUpload, capacity: Capacity)
    : Result<Store, StoreError>
  {
    if jobId !in s.jobs then Err(JobNotFound)
    else if s.jobs[jobId].state.Ready? then
      if HasReadyRegistration(s, jobId) then Ok(s) else Err(ReadyRegistrationMissing)
    else if !MatchesJob(s.jobs[jobId].request, upload) then Err(RegistrationMismatch)
    else if upload.path in s.uploads then Err(DuplicateUploadPath)
    else if capacity.readyPerSession <= |ReadyPathsInScope(s, upload.userId, upload.sessionScopeHash)| then
      Err(SessionUploadLimit)
    else if capacity.readyTotal <= |ReadyPaths(s)| then Err(GlobalUploadLimit)
    else
      match Transition(s.jobs[jobId], c)
      case Err(e) => Err(Policy(e))
      case Ok(next) =>
        Ok(s.(uploads := s.uploads[upload.path := Registered(upload)], jobs := s.jobs[jobId := next]))
  }

  function CompleteCompensation(s: Store, jobId: string, c: Command): Result<Store, StoreError> {
    match CompensationSafety(s, jobId)
    case Blocked(e) => Err(e)
    case Pass =>
      var path := s.jobs[jobId].request.outputStorageKey;
      match Transition(s.jobs[jobId], c)
      case Err(e) => Err(Policy(e))
      case Ok(next) =>
        Ok(s.(
             uploads := if path in s.uploads && s.uploads[path].state.ReadyUpload?
                        then s.uploads - {path} else s.uploads,
             jobs := s.jobs[jobId := next]))
  }

  function Attach(upload: Upload, atMs: int, expiresAtMs: int): Upload {
    upload.(
      state := Attached,
      attachedAtMs := Some(upload.attachedAtMs.GetOr(atMs)),
      expiresAtMs := expiresAtMs)
  }

  /** createLink. */
  function CreateLink(s: Store, input: LinkInput): Result<Store, StoreError> {
    var link := Link(input.userId, input.image, input.createdAtMs);
    if input.key in s.links then Err(DuplicateCode)
    else if !input.isCreatable then Err(DomainNotCreatable)
    else if input.image.None? || !IsManagedImagePath(input.image.value) then
      Ok(s.(links := s.links[input.key := link]))
    else
      var path := input.image.value;
      if && input.imageSessionScopeHash.Some?
         && IsOwnedUpload(s, path, input.userId, input.imageSessionScopeHash.value, input.createdAtMs)
         && input.imageOwnershipExpiresAtMs.Some?
         && input.createdAtMs < input.imageOwnershipExpiresAtMs.value
      then
        var upload := Attach(s.uploads[path], input.createdAtMs, input.imageOwnershipExpiresAtMs.value);
        Ok(s.(links := s.links[input.key := link], uploads := s.uploads[path := upload]))
      else Err(UploadUnavailable)
  }

  function DeleteLink(s: Store, key: LinkKey, userId: int): Store {
    if key in s.links && s.links[key].userId == userId then s.(links := s.links - {key}) else s
  }

  function MarkAttached(
    s: Store, userId: int, scope: string, paths: set<string>, atMs: int, expiresAtMs: int)
    : Result<Store, StoreError>
  {
    if exists p :: p in paths && !IsOwnedUpload(s, p, userId, scope, atMs) then Err(UploadUnavailable)
    else
      Ok(s.(uploads :=
              map p | p in s.uploads ::
                if p in paths then Attach(s.uploads[p], atMs, expiresAtMs) else s.uploads[p]))
  }

  // ---------------------------------------------------------------------------------------------
  // The maps and the methods that change them
  // ---------------------------------------------------------------------------------------------

  class ImageStore {
    var jobs: map<string, ImageJob>
    var jobIdByRequest: map<string, string>
    var jobIdByOutput: map<string, string>
    var uploads: map<string, Upload>
    var links: map<LinkKey, Link>

    ghost function View(): Store
      reads this
    {
      Store(jobs, jobIdByRequest, jobIdByOutput, uploads, links)
    }

    constructor ()
      ensures View() == Store(map[], map[], map[], map[], map[])
    {
      jobs, jobIdByRequest, jobIdByOutput := map[], map[], map[];
      uploads, links := map[], map[];
    }

    method ReserveImageJob(input: NewImageJob, atMs: int) returns (r: Result<Creation, PolicyError>)
      modifies this
      ensures r == DecideReservation(old(View()), input, atMs)
      ensures r.Ok? ==> Reserve(old(View()), input, atMs) == Ok(View())
      ensures r.Err? ==> View() == old(View())
    {
      var byRequestKey := None;
      if input.requestKey in jobIdByRequest {
        byRequestKey := Lookup(jobs, jobIdByRequest[input.requestKey]);
      }
      r := DecideImageJobCreation(input, byRequestKey, Lookup(jobs, input.jobId), atMs);
      if r.Ok? && r.value.Create? {
        var stored := r.value.job.request;
        jobs := jobs[stored.jobId := r.value.job];
        jobIdByRequest := jobIdByRequest[stored.requestKey := stored.jobId];
        jobIdByOutput := jobIdByOutput[stored.outputStorageKey := stored.jobId];
      }
    }

    method TransitionImageJob(jobId: string, c: Command) returns (r: Result<ImageJob, StoreError>)
      modifies this
      ensures r.Ok? ==>
                TransitionJob(old(View()), jobId, c) == Ok(View()) && jobId in jobs && r.value == jobs[jobId]
      ensures r.Err? ==> TransitionJob(old(View()), jobId, c) == Err(r.error) && View() == old(View())
    {
      if jobId !in jobs {
        return Err(JobNotFound);
      }
      var next := Transition(jobs[jobId], c);
      if next.Err? {
        return Err(Policy(next.error));
      }
      jobs := jobs[jobId := next.value];
      return Ok(next.value);
    }

    method CountReadyForScope(userId: int, scope: string) returns (n: nat)
      ensures n == |ReadyPathsInScope(View(), userId, scope)|
      ensures n == |set p | p in uploads && uploads[p].state == ReadyUpload && uploads[p].userId == userId
                            && uploads[p].sessionScopeHash == scope|
    {
      var matching := set p | p in uploads && uploads[p].state.ReadyUpload?
                              && uploads[p].userId == userId && uploads[p].sessionScopeHash == scope;
      assert matching == ReadyPathsInScope(View(), userId, scope);
      assert matching == set p | p in uploads && uploads[p].state == ReadyUpload && uploads[p].userId == userId
                                 && uploads[p].sessionScopeHash == scope;
      return |matching|;
    }

    method CountReadyTotal() returns (n: nat)
      ensures n == |ReadyPaths(View())|
    {
      var matching := set p | p in uploads && uploads[p].state.ReadyUpload?;
      assert matching == ReadyPaths(View());
      return |matching|;
    }

    method HasReadyImageRegistration(jobId: string) returns (present: bool)
      ensures present == HasReadyRegistration(View(), jobId)
      ensures present ==>
                && jobId in jobs && jobs[jobId].state.Ready?
                && var job := jobs[jobId].request;
                   && job.outputStorageKey in uploads && uploads[job.outputStorageKey].userId == job.userId
                   && uploads[job.outputStorageKey].sessionScopeHash == job.sessionScopeHash
    {
      if jobId !in jobs || IsAttachable(jobs[jobId]) != Ok(true) {
        return false;
      }
      var job := jobs[jobId].request;
      if job.outputStorageKey !in uploads {
        return false;
      }
      var upload := uploads[job.outputStorageKey];
      return upload.userId == job.userId && upload.sessionScopeHash == job.sessionScopeHash;
    }

    method PublishImageJobReady(jobId: string, c: Command, upload: RegisterUpload, capacity: Capacity)
      returns (r: Result<ImageJob, StoreError>)
      requires c.action.MarkReady?
      modifies this
      ensures r.Ok? ==>
                && Publish(old(View()), jobId, c, upload, capacity) == Ok(View())
                && jobId in jobs && r.value == jobs[jobId]
      ensures r.Err? ==>
                Publish(old(View()), jobId, c, upload, capacity) == Err(r.error) && View() == old(View())
    {
      if jobId !in jobs {
        return Err(JobNotFound);
      }
      var current := jobs[jobId];
      if current.state.Ready? {
        var registered := HasReadyImageRegistration(jobId);
        return if registered then Ok(current) else Err(ReadyRegistrationMissing);
      }
      if !MatchesJob(current.request, upload) {
        return Err(RegistrationMismatch);
      }
      if upload.path in uploads {
        return Err(DuplicateUploadPath);
      }
      var inScope := CountReadyForScope(upload.userId, upload.sessionScopeHash);
      if capacity.readyPerSession <= inScope {
        return Err(SessionUploadLimit);
      }
      var total := CountReadyTotal();
      if capacity.readyTotal <= total {
        return Err(GlobalUploadLimit);
      }
      var next := Transition(current, c);
      if next.Err? {
        return Err(Policy(next.error));
      }
      uploads := uploads[upload.path := Registered(upload)];
      jobs := jobs[jobId := next.value];
      return Ok(next.value);
    }

    method AssertImageJobCompensationSafe(jobId: string) returns (g: Guard<StoreError>)
      ensures g == CompensationSafety(View(), jobId)
      ensures g.Pass? <==>
                && jobId in jobs
                && var path := jobs[jobId].request.outputStorageKey;
                   && (path in uploads ==> uploads[path].state == ReadyUpload)
                   && forall k | k in links :: links[k].image != Some(path)
    {
      if jobId !in jobs {
        return Blocked(JobNotFound);
      }
      var path := jobs[jobId].request.outputStorageKey;
      if path in uploads && uploads[path].state.Attached? {
        return Blocked(ImageAttached);
      }
      var rest := links.Keys;
      while rest != {}
        invariant rest <= links.Keys
        invariant forall k :: k in links.Keys - rest ==> links[k].image != Some(path)
      {
        var k :| k in rest;
        if links[k].image == Some(path) {
          assert IsReferenced(View(), path);
          return Blocked(ImageReferenced);
        }
        rest := rest - {k};
      }
      return Pass;
    }

    method CompleteImageJobCompensation(jobId: string, c: Command) returns (r: Result<ImageJob, StoreError>)
      requires c.action.MarkCompensated? || c.action.RecoverCompensated?
      modifies this
      ensures r.Ok? ==>
                && CompleteCompensation(old(View()), jobId, c) == Ok(View())
                && jobId in jobs && r.value == jobs[jobId]
      ensures r.Err? ==>
                CompleteCompensation(old(View()), jobId, c) == Err(r.error) && View() == old(View())
    {
      var safe := AssertImageJobCompensationSafe(jobId);
      if safe.Blocked? {
        return Err(safe.error);
      }
      var path := jobs[jobId].request.outputStorageKey;
      var next := Transition(jobs[jobId], c);
      if next.Err? {
        return Err(Policy(next.error));
      }
      if path in uploads && uploads[path].state.ReadyUpload? {
        uploads := uploads - {path};
      }
      jobs := jobs[jobId := next.value];
      return Ok(next.value);
    }

    method AddLink(input: LinkInput) returns (r: Result<Link, StoreError>)
      modifies this
      ensures r.Ok? ==>
                && CreateLink(old(View()), input) == Ok(View())
                && input.key in links && r.value == links[input.key]
      ensures r.Err? ==> CreateLink(old(View()), input) == Err(r.error) && View() == old(View())
      ensures r.Ok? && input.image.Some? && IsManagedImagePath(input.image.value) ==>
                && input.image.value in old(uploads)
                && var upload := old(uploads)[input.image.value];
                   && upload.userId == input.userId && Some(upload.sessionScopeHash) == input.imageSessionScopeHash
                   && input.createdAtMs < upload.expiresAtMs
    {
      if input.key in links {
        return Err(DuplicateCode);
      }
      if !input.isCreatable {
        return Err(DomainNotCreatable);
      }
      var upload: Option<Upload> := None;
      if input.image.Some? && IsManagedImagePath(input.image.value) {
        if input.imageSessionScopeHash.None? {
          return Err(UploadUnavailable);
        }
        var owned := IsOwned(
          input.image.value, input.userId, input.imageSessionScopeHash.value, input.createdAtMs);
        if !owned {
          return Err(UploadUnavailable);
        }
        upload := Some(uploads[input.image.value]);
        if input.imageOwnershipExpiresAtMs.None?
           || input.imageOwnershipExpiresAtMs.value <= input.createdAtMs {
          return Err(UploadUnavailable);
        }
      }
      links := links[input.key := Link(input.userId, input.image, input.createdAtMs)];
      if upload.Some? {
        uploads := uploads[
          input.image.value := Attach(upload.value, input.createdAtMs, input.imageOwnershipExpiresAtMs.value)];
      }
      return Ok(links[input.key]);
    }

    method IsOwned(path: string, userId: int, scope: string, atMs: int) returns (owned: bool)
      ensures owned == IsOwnedUpload(View(), path, userId, scope, atMs)
    {
      if path !in uploads {
        return false;
      }
      var row := uploads[path];
      if row.userId != userId || row.sessionScopeHash != scope || row.expiresAtMs <= atMs {
        return false;
      }
      if path !in jobIdByOutput {
        return true;
      }
      var job := Lookup(jobs, jobIdByOutput[path]);
      return job.Some? && job.value.request.userId == userId && IsAttachable(job.value) == Ok(true);
    }

    method DeleteOwnedLink(key: LinkKey, userId: int) returns (deleted: bool)
      modifies this
      ensures View() == DeleteLink(old(View()), key, userId)
      ensures deleted <==> key in old(links) && old(links)[key].userId == userId
      ensures links == if deleted then old(links) - {key} else old(links)
    {
      if key !in links || links[key].userId != userId {
        return false;
      }
      links := links - {key};
      return true;
    }

    method MarkUploadsAttached(userId: int, scope: string, paths: seq<string>, atMs: int, expiresAtMs: int)
      returns (g: Guard<StoreError>)
      modifies this
      ensures var spec := MarkAttached(old(View()), userId, scope, (set p | p in paths), atMs, expiresAtMs);
              match g
              case Pass => spec == Ok(View())
              case Blocked(e) => spec == Err(e) && View() == old(View())
      ensures g.Pass? ==>
                forall p | p in paths ::
                  && p in old(uploads) && old(uploads)[p].userId == userId
                  && old(uploads)[p].sessionScopeHash == scope && atMs < old(uploads)[p].expiresAtMs
    {
      var unique := set p | p in paths;
      var rest := unique;
      while rest != {}
        invariant rest <= unique && View() == old(View())
        invariant forall p :: p in unique - rest ==> IsOwnedUpload(View(), p, userId, scope, atMs)
      {
        var p :| p in rest;
        var owned := IsOwned(p, userId, scope, atMs);
        if !owned {
          return Blocked(UploadUnavailable);
        }
        rest := rest - {p};
      }
      assert forall p :: p in unique ==> IsOwnedUpload(View(), p, userId, scope, atMs) && p in uploads;
      ghost var before := uploads;
      rest := unique;
      while rest != {}
        invariant rest <= unique && unique <= before.Keys
        invariant View() == old(View()).(uploads := uploads)
        invariant uploads == map p | p in before ::
                    if p in unique - rest then Attach(before[p], atMs, expiresAtMs) else before[p]
      {
        var p :| p in rest;
        uploads := uploads[p := Attach(uploads[p], atMs, expiresAtMs)];
        rest := rest - {p};
      }
      assert unique - rest == unique;
      return Pass;
    }
  }
}
