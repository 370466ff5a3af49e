/** The protocol's promises over whole runs: nobody is ever shown an image that is not there. */
module ImageProtocolRuns {
  import opened Outcomes
  import opened ImageJobPolicy
  import opened ImageJobEffects
  import opened ImageStores
  import opened ImageStoreAgreement
  import opened ImageProtocol
  import opened ImageProtocolSafety
  import opened ImageProtocolWrites

  // ---------------------------------------------------------------------------------------------
  // Events other than a call's own step
  // ---------------------------------------------------------------------------------------------

  lemma ArrivalIsGood(w: World, a: Actor)
    requires IsGood(w) && IsSafe(w.store, w.files, a)
    ensures IsGood(w.(actors := w.actors + [a]))
  {
    hide IsIndexed, IsRegistered, IsLinked, IsCondemned, IsSafe, HasReadyFiles;
  }

  lemma NothingIsGood(w: World)
    requires IsGood(w)
    ensures IsWorldLater(w, w)
  {
    hide IsGood, IsStoreLater;
    UnchangedIsLater(w.store);
    NothingVanishes(w);
  }

  lemma StartUploadIsGood(w: World, input: NewImageJob, atMs: int)
    requires IsGood(w)
    ensures var next := Next(w, StartUpload(input, atMs)); IsGood(next) && IsWorldLater(w, next)
  {
    hide IsGood, IsCondemned, IsStoreLater;
    UnchangedIsLater(w.store);
    NothingVanishes(w);
    var left := w.files + {InputFile(input.inputStorageKey)};
    FilesMoveGood(w, left);
    ArrivalIsGood(w.(files := left), Reserving(input, atMs));
  }

  lemma StartingIsGood(w: World, e: Event)
    requires IsGood(w) && (e.StartUpload? || e.StartRecovery? || e.StartReview?)
    ensures IsGood(Next(w, e)) && IsWorldLater(w, Next(w, e))
  {
    hide IsGood, IsWorldLater, NeedsRecovery;
    NothingIsGood(w);
    if e.StartUpload? {
      StartUploadIsGood(w, e.input, e.atMs);
    } else if e.jobId in w.store.jobs {
      var row := w.store.jobs[e.jobId];
      var a := if e.StartReview? then ReadingForReview(row, e.failure) else ObservingFinal(row, e.nowMs);
      RowJoinsGood(w, e.jobId, a);
    }
  }

  /** A call that has just read a row. */
  lemma RowJoinsGood(w: World, jobId: string, a: Actor)
    requires IsGood(w) && jobId in w.store.jobs
    requires (a.ReadingForReview? || a.ObservingFinal?) && a.job == w.store.jobs[jobId]
    ensures var next := w.(actors := w.actors + [a]); IsGood(next) && IsWorldLater(w, next)
  {
    hide IsGood, IsStoreLater, IsSnapshot, IsCondemned;
    UnchangedIsLater(w.store);
    NothingVanishes(w);
    RowOfGood(w, jobId);
    ArrivalIsGood(w, a);
  }

  lemma RowOfGood(w: World, jobId: string)
    requires IsGood(w) && jobId in w.store.jobs
    ensures IsSnapshot(w.store, w.store.jobs[jobId])
  {
    hide IsRegistered, IsLinked, IsCondemned, IsSafe, HasReadyFiles;
    RowIsSnapshot(w.store, jobId);
  }

  /** The final that a crashed removal may still take away belongs to a condemned job. */
  lemma InFlightIsCondemned(s: Store, files: set<File>, a: Actor)
    requires IsIndexed(s) && IsSafe(s, files, a)
    ensures forall key | key in InFlight(a) :: IsCondemned(s, key)
  {
    hide IsIndexed, IsCondemned, IsSnapshot;
    if a.Unlinking? || a.UnlinkingRecovery? {
      assert a.job in Held(a);
      SnapshotCondemns(s, a.job);
    }
  }

  lemma CrashIsGood(w: World, i: nat)
    requires IsGood(w)
    ensures IsGood(Next(w, Crash(i))) && IsWorldLater(w, Next(w, Crash(i)))
  {
    hide IsIndexed, IsRegistered, IsLinked, IsCondemned, IsSnapshot, IsStoreLater, InFlight;
    UnchangedIsLater(w.store);
    NothingVanishes(w);
    if i < |w.actors| {
      InFlightIsCondemned(w.store, w.files, w.actors[i]);
      assert IsSafe(w.store, w.files, Crashed);
      hide IsSafe;
    }
  }

  /** What a call may send, it may also have left behind. */
  lemma WriteIsSafe(s: Store, files: set<File>, a: Actor, env: Env)
    requires IsSafe(s, files, a) && WriteOf(a, env).Some?
    ensures IsSafe(s, files, Committing(WriteOf(a, env).value))
  {
    hide IsSnapshot, WriteOf, IsReadyNow, HasSeenFinal;
    WriteIsFitting(a, env);
    var write := WriteOf(a, env).value;
    assert !write.ReserveRow? ==> write.job in Held(a);
  }

  lemma WriteIsFitting(a: Actor, env: Env)
    requires WriteOf(a, env).Some? && KnowsPhase(a)
    ensures var write := WriteOf(a, env).value;
            && IsFitting(write) && (!write.ReserveRow? ==> write.job in Held(a))
            && (write.PublishRow? ==> a == MarkingReady(write.job) || a == Committing(write))
            && (write.MoveRow? && write.action.RecoverReady? ==>
                  || (a.Acting? && a.job == write.job && a.evidence.readyRegistration.Present?)
                  || a == Committing(write))
  {
    hide SafeCode, HasLiveLease, HeldBy, PlanRestart;
    if a.Acting? {
      RecoverReadyIsSeen(a.job, a.evidence, a.nowMs);
    }
  }

  lemma RecoverReadyIsSeen(job: ImageJob, e: Evidence, nowMs: int)
    ensures PlanRestart(job, e, nowMs) == Ok(DoRecoverReady) ==> e.readyRegistration.Present?
  {
    hide IsValid, HasLiveLease, IsDue;
  }

  lemma TimeOutIsGood(w: World, i: nat, env: Env)
    requires IsGood(w)
    ensures IsGood(Next(w, TimeOut(i, env))) && IsWorldLater(w, Next(w, TimeOut(i, env)))
  {
    hide IsGood, IsStoreLater, IsCondemned, ActorStep, WriteOf, IsSafe, IsHonestStep;
    NothingIsGood(w);
    if i < |w.actors| && WriteOf(w.actors[i], env).Some? {
      var failing := env.(works := false);
      SameWrite(w.actors[i], env, failing);
      FailedWriteChangesNothing(w, w.actors[i], failing);
      FailedStepIsGood(w, i, failing);
      SafeOfGood(w, i);
      WriteIsSafe(w.store, w.files, w.actors[i], env);
      ArrivalIsGood(Next(w, Proceed(i, failing)), Committing(WriteOf(w.actors[i], env).value));
    }
  }

  lemma SameWrite(a: Actor, env: Env, failing: Env)
    requires failing == env.(works := false)
    ensures WriteOf(a, failing) == WriteOf(a, env)
  {
    hide SafeCode, PlanRestart, HasLiveLease;
  }

  lemma SafeOfGood(w: World, i: nat)
    requires IsGood(w) && i < |w.actors|
    ensures IsSafe(w.store, w.files, w.actors[i])
  {
    hide IsSafe, Agrees, HasReadyFiles, IsCondemned;
  }

  /** A step that fails reserves nothing, so it needs no honesty. */
  lemma FailedStepIsGood(w: World, i: nat, env: Env)
    requires IsGood(w) && i < |w.actors| && !env.works
    ensures IsGood(Next(w, Proceed(i, env)))
  {
    hide IsStoreLater, IsCondemned, IsSafe, IsHonest, Agrees, HasReadyFiles;
    var a := w.actors[i];
    if IsReserving(a) {
      assert IsSafe(w.store, w.files, a);
      FailedReservationIsSafe(w, a, env);
    } else {
      hide IsGood, Next;
      ProceedIsGood(w, i, env);
    }
  }

  lemma FailedReservationIsSafe(w: World, a: Actor, env: Env)
    requires IsReserving(a) && !env.works
    ensures var o := ActorStep(w, a, env);
            && o.store == w.store && o.files == w.files && o.strays == w.strays
            && IsSafe(w.store, w.files, o.actor)
  {
    hide IsSnapshot, DecideReservation;
  }

  lemma FilesMoveGood(w: World, left: set<File>)
    requires IsGood(w) && KeepsFinals(w.store, w.files, left)
    ensures IsGood(w.(files := left)) && IsWorldLater(w, w.(files := left))
  {
    hide IsIndexed, IsRegistered, IsLinked, IsCondemned, IsSafe, HasReadyFiles, IsStoreLater, IsQuiet;
    hide KeepsFinals;
    UnchangedIsLater(w.store);
    QuietKeepsReadyFiles(w.store, w.files, w.store, left);
    OthersOf(w, w.store, left);
  }

  /** Creating and deleting links and attaching uploads touch no ledger row. */
  lemma UseKeepsRows(s: Store, op: Operation)
    requires op.LinkOp? || op.UnlinkOp? || op.AttachOp?
    ensures Execute(s, op).jobs == s.jobs && Execute(s, op).jobIdByOutput == s.jobIdByOutput
  {
    hide IsOwnedUpload;
  }

  lemma SameRowsAreLater(s: Store, next: Store)
    requires next.jobs == s.jobs && next.jobIdByOutput == s.jobIdByOutput
    ensures IsStoreLater(s, next) && IsQuiet(s, next)
  {
  }

  lemma UseIsLater(s: Store, op: Operation)
    requires Agrees(s) && (op.LinkOp? || op.UnlinkOp? || op.AttachOp?)
    ensures Agrees(Execute(s, op)) && IsStoreLater(s, Execute(s, op)) && IsQuiet(s, Execute(s, op))
  {
    hide Agrees, Execute, IsStoreLater, IsQuiet;
    HonestKeepsAgreement(s, op);
    UseKeepsRows(s, op);
    SameRowsAreLater(s, Execute(s, op));
  }

  lemma UseIsGood(w: World, op: Operation)
    requires IsGood(w) && (op.LinkOp? || op.UnlinkOp? || op.AttachOp?)
    ensures IsGood(Next(w, UseImage(op))) && IsWorldLater(w, Next(w, UseImage(op)))
  {
    hide IsIndexed, IsRegistered, IsLinked, IsSafe, Execute, IsStoreLater, IsQuiet, HasReadyFiles, IsCondemned;
    var next := Execute(w.store, op);
    UseIsLater(w.store, op);
    NothingVanishes(w.(store := next));
    hide KeepsFinals;
    QuietKeepsReadyFiles(w.store, w.files, next, w.files);
    OthersOf(w, next, w.files);
    StraysOf(w, next);
  }

  lemma StrayUnlinkIsGood(w: World, key: string)
    requires IsGood(w)
    ensures IsGood(Next(w, StrayUnlink(key))) && IsWorldLater(w, Next(w, StrayUnlink(key)))
  {
    hide IsSafe, IsIndexed, IsRegistered, IsLinked, IsCondemned, IsWorldLater, HasReadyFiles;
    FilesMoveGood(w, Next(w, StrayUnlink(key)).files);
  }

  lemma DisturbIsGood(w: World, file: File, present: bool)
    requires IsGood(w)
    ensures IsGood(Next(w, Disturb(file, present))) && IsWorldLater(w, Next(w, Disturb(file, present)))
  {
    hide IsGood, IsCondemned, IsWorldLater;
    FilesMoveGood(w, Next(w, Disturb(file, present)).files);
  }

  lemma EventIsGood(w: World, e: Event)
    requires IsGood(w) && IsLegal(w, e)
    ensures IsGood(Next(w, e)) && IsWorldLater(w, Next(w, e))
  {
    hide IsGood, IsWorldLater, ActorStep, Execute, IsHonestStep, NeedsRecovery, WriteOf;
    match e {
      case StartUpload(_, _) => StartingIsGood(w, e);
      case StartRecovery(_, _) => StartingIsGood(w, e);
      case StartReview(_, _) => StartingIsGood(w, e);
      case Proceed(i, env) => ProceedIsGood(w, i, env);
      case Crash(i) => CrashIsGood(w, i);
      case TimeOut(i, env) => TimeOutIsGood(w, i, env);
      case StrayUnlink(key) => StrayUnlinkIsGood(w, key);
      case Disturb(file, present) => DisturbIsGood(w, file, present);
      case UseImage(op) =>
        if op.LinkOp? || op.UnlinkOp? || op.AttachOp? {
          UseIsGood(w, op);
        } else {
          NothingIsGood(w);
        }
    }
  }

  // ---------------------------------------------------------------------------------------------
  // Runs
  // ---------------------------------------------------------------------------------------------

  lemma {:induction false} RunsStayGood(w: World, es: seq<Event>)
    requires IsGood(w) && IsLegalRun(w, es)
    ensures IsGood(RunAll(w, es))
  {
    hide IsGood, Next, IsLegal, IsWorldLater;
    if es != [] {
      RunsStayGood(w, es[..|es| - 1]);
      EventIsGood(RunAll(w, es[..|es| - 1]), es[|es| - 1]);
    }
  }

  lemma EmptyIsGood()
    ensures IsGood(EmptyWorld)
  {
    hide IsSound, IsSafe, IsManagedImagePath;
  }

  lemma LaterStoresCompose(a: Store, b: Store, c: Store)
    requires IsStoreLater(a, b) && IsStoreLater(b, c)
    ensures IsStoreLater(a, c)
  {
    forall id | id in a.jobs
      ensures id in c.jobs && IsLater(a.jobs[id], c.jobs[id])
    {
      LaterIsTransitive(a.jobs[id], b.jobs[id], c.jobs[id]);
    }
  }

  lemma LaterWorldsCompose(a: World, b: World, c: World)
    requires IsWorldLater(a, b) && IsWorldLater(b, c)
    ensures IsWorldLater(a, c)
  {
    hide IsStoreLater, IsCondemned;
    LaterStoresCompose(a.store, b.store, c.store);
    forall key | FinalFile(key) in a.files
      ensures FinalFile(key) in c.files || IsCondemned(c.store, key)
    {
      if IsCondemned(b.store, key) {
        LaterStaysCondemned(b.store, c.store, key);
      }
    }
  }

  /** From any moment of a run to its end: rows only move on, and only condemned finals vanish. */
  lemma {:induction false} RunsMoveForward(es: seq<Event>, n: nat)
    requires n <= |es| && IsLegalRun(EmptyWorld, es)
    ensures IsLegalRun(EmptyWorld, es[..n])
    ensures IsWorldLater(RunAll(EmptyWorld, es[..n]), RunAll(EmptyWorld, es))
    decreases |es|
  {
    hide IsGood, Next, IsLegal, IsWorldLater, IsStoreLater;
    if n == |es| {
      assert es[..n] == es;
      UnchangedIsLater(RunAll(EmptyWorld, es).store);
      NothingVanishes(RunAll(EmptyWorld, es));
      StaysPut(RunAll(EmptyWorld, es));
    } else {
      var front := es[..|es| - 1];
      RunsMoveForward(front, n);
      assert front[..n] == es[..n];
      EmptyIsGood();
      RunsStayGood(EmptyWorld, front);
      EventIsGood(RunAll(EmptyWorld, front), es[|es| - 1]);
      LaterWorldsCompose(RunAll(EmptyWorld, es[..n]), RunAll(EmptyWorld, front), RunAll(EmptyWorld, es));
    }
  }

  lemma StaysPut(w: World)
    ensures IsWorldLater(w, w)
  {
  }

  // ---------------------------------------------------------------------------------------------
  // The promises
  // ---------------------------------------------------------------------------------------------

  /** The image at `path` is complete: its job is ready, its file public, its registration committed. */
  predicate IsServed(w: World, path: string) {
    && IsOwnedByReady(w.store, path)
    && FinalFile(path) in w.files
    && HasReadyRegistration(w.store, w.store.jobIdByOutput[path])
  }

  lemma GoodServesReady(w: World, jobId: string)
    requires IsGood(w) && jobId in w.store.jobs && w.store.jobs[jobId].state.Ready?
    ensures IsServed(w, w.store.jobs[jobId].request.outputStorageKey)
  {
    hide IsSafe, IsCondemned, IsSound, IsManagedImagePath, HasReadyRegistration;
    OwnerOf(w.store, jobId);
    AgreementIsCoherent(w.store, jobId);
    hide IsIndexed, IsRegistered, IsLinked;
  }

  /**
   Crash-safe publication. However the calls interleave, stall and crash: every ready row has its
   public file and its committed registration.
   */
  lemma ReadyMeansServed(es: seq<Event>, jobId: string)
    requires IsLegalRun(EmptyWorld, es)
    requires var w := RunAll(EmptyWorld, es); jobId in w.store.jobs && w.store.jobs[jobId].state.Ready?
    ensures var w := RunAll(EmptyWorld, es); IsServed(w, w.store.jobs[jobId].request.outputStorageKey)
  {
    EmptyIsGood();
    hide IsGood, IsServed, IsLegalRun, RunAll;
    RunsStayGood(EmptyWorld, es);
    GoodServesReady(RunAll(EmptyWorld, es), jobId);
  }

  /** ... and stays so to the end of the run: nothing un-publishes it. */
  lemma ReadyIsForGood(es: seq<Event>, n: nat, jobId: string)
    requires n <= |es| && IsLegalRun(EmptyWorld, es)
    requires var w := RunAll(EmptyWorld, es[..n]); jobId in w.store.jobs && w.store.jobs[jobId].state.Ready?
    ensures var w := RunAll(EmptyWorld, es[..n]);
            var later := RunAll(EmptyWorld, es);
            && jobId in later.store.jobs && later.store.jobs[jobId] == w.store.jobs[jobId]
            && IsServed(later, w.store.jobs[jobId].request.outputStorageKey)
  {
    hide IsServed, RunAll, IsLegalRun, IsStoreLater;
    RunsMoveForward(es, n);
    ReadyStaysReady(RunAll(EmptyWorld, es[..n]).store, RunAll(EmptyWorld, es).store, jobId);
    ReadyMeansServed(es, jobId);
  }

  /** An upload that was answered with a path is served from that moment to the end of the run. */
  lemma AnswersStayTrue(es: seq<Event>, n: nat, i: nat)
    requires n <= |es| && IsLegalRun(EmptyWorld, es)
    requires var actors := RunAll(EmptyWorld, es[..n]).actors;
             i < |actors| && actors[i].Done? && actors[i].response.Some?
    ensures IsServed(RunAll(EmptyWorld, es), RunAll(EmptyWorld, es[..n]).actors[i].response.value)
  {
    hide RunAll, IsLegalRun, IsStoreLater, IsServed, IsIndexed, IsRegistered, IsLinked, IsCondemned;
    EmptyIsGood();
    RunsMoveForward(es, n);
    RunsStayGood(EmptyWorld, es[..n]);
    var w := RunAll(EmptyWorld, es[..n]);
    assert IsSafe(w.store, w.files, w.actors[i]);
    ReadyIsForGood(es, n, w.store.jobIdByOutput[w.actors[i].response.value]);
  }

  /** Every link that shows a managed image shows one whose file is there. */
  lemma LinksShowFiles(es: seq<Event>, key: LinkKey)
    requires IsLegalRun(EmptyWorld, es) && key in RunAll(EmptyWorld, es).store.links
    ensures var w := RunAll(EmptyWorld, es);
            var image := w.store.links[key].image;
            image.Some? && IsManagedImagePath(image.value) ==> IsServed(w, image.value)
  {
    EmptyIsGood();
    hide RunAll, IsLegalRun, IsServed, IsSafe, IsCondemned, IsSound, IsManagedImagePath;
    RunsStayGood(EmptyWorld, es);
    var w := RunAll(EmptyWorld, es);
    var image := w.store.links[key].image;
    if image.Some? && IsManagedImagePath(image.value) {
      GoodServesReady(w, w.store.jobIdByOutput[image.value]);
    }
  }

  /** A public file disappears only when its job can no longer become ready. */
  lemma OnlyCondemnedFinalsVanish(es: seq<Event>, n: nat, path: string)
    requires n <= |es| && IsLegalRun(EmptyWorld, es)
    requires FinalFile(path) in RunAll(EmptyWorld, es[..n]).files
    requires FinalFile(path) !in RunAll(EmptyWorld, es).files
    ensures IsCondemned(RunAll(EmptyWorld, es).store, path)
  {
    hide RunAll, IsLegalRun, IsStoreLater, IsCondemned;
    RunsMoveForward(es, n);
  }
}
