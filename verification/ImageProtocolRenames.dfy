/**
 Where public files come from: a file that is not there appears only by a rename, and the file of a job in
 compensation stays away for good exactly when no call is about to rename to it.
 */
module ImageProtocolRenames {
  import opened Outcomes
  import opened ImageJobPolicy
  import opened ImageJobEffects
  import opened ImageStores
  import opened ImageStoreAgreement
  import opened ImageProtocol
  import opened ImageProtocolSafety
  import opened ImageProtocolWrites
  import opened ImageProtocolRuns
  import opened ImageProtocolDrives

  predicate IsRenamer(a: Actor, path: string) {
    a.Renaming? && a.job.request.outputStorageKey == path
  }

  /** The event is a rename to `path` that finds its output. */
  predicate IsRename(w: World, e: Event, path: string) {
    && e.Proceed? && e.i < |w.actors| && e.env.works
    && IsRenamer(w.actors[e.i], path) && TempOf(w.actors[e.i].job) in w.files
  }

  /** A step of the driver publishes only by renaming, and comes to a rename only from its last command. */
  lemma DrivePublishes(w: World, a: Actor, env: Env, path: string)
    requires IsDriving(a) && FinalFile(path) !in w.files
    ensures var o := DriveStep(w, a, env);
            && (FinalFile(path) in o.files
                <==> IsRenamer(a, path) && env.works && TempOf(a.job) in w.files)
            && (o.actor.Renaming? ==>
                  && env.works && a.BeginningPublication?
                  && Lookup(o.store.jobs, a.job.request.jobId) == Some(o.actor.job))
  {
    hide Transition, CallPublish, HasReadyRegistration, IsAttachableJob;
  }

  predicate IsDriving(a: Actor) {
    || a.Driving? || a.AnsweringReady? || a.AnsweringFinal? || a.Claiming? || a.Executing?
    || a.RecordingOutput? || a.BeginningPublication? || a.Renaming? || a.MarkingReady?
  }

  predicate PublishesNothing(o: Outcome, path: string) {
    FinalFile(path) !in o.files && !o.actor.Renaming?
  }

  lemma CatchPublishesNothing(w: World, a: Actor, env: Env, path: string)
    requires IsCatching(a) && FinalFile(path) !in w.files
    ensures PublishesNothing(CatchStep(w, a, env), path)
  {
    hide CallTransition, IsAttachableJob, SafeCode, IsReferenceFailure, IsAmbiguousExecution;
  }

  lemma CompensatePublishesNothing(w: World, a: Actor, env: Env, path: string)
    requires IsCompensation(a) && FinalFile(path) !in w.files
    ensures PublishesNothing(CompensateStep(w, a, env), path)
  {
    hide CallTransition, CallComplete, CompensationSafety, FinalsIn, SafeCode, HasLiveLease;
    hide IsReferenceFailure, IsStaleFailure;
  }

  lemma RecoverPublishesNothing(w: World, a: Actor, env: Env, path: string)
    requires IsReconciling(a) && FinalFile(path) !in w.files
    ensures PublishesNothing(RecoverStep(w, a, env), path)
  {
    hide CallTransition, CallComplete, CompensationSafety, FinalsIn, SafeCode, ReadRow;
    hide IsReferenceFailure, IsStaleFailure;
  }

  lemma ActPublishesNothing(w: World, a: Actor, env: Env, path: string)
    requires a.Acting? && FinalFile(path) !in w.files
    ensures PublishesNothing(ActStep(w, a, env), path)
  {
    hide CallTransition, PlanRestart;
  }

  lemma StepPublishes(w: World, a: Actor, env: Env, path: string)
    requires FinalFile(path) !in w.files
    ensures var o := ActorStep(w, a, env);
            && (FinalFile(path) in o.files
                <==> IsRenamer(a, path) && env.works && TempOf(a.job) in w.files)
            && (o.actor.Renaming? ==>
                  && env.works && a.BeginningPublication?
                  && Lookup(o.store.jobs, a.job.request.jobId) == Some(o.actor.job))
  {
    hide DriveStep, CatchStep, CompensateStep, RecoverStep, ActStep, Applied, Lookup;
    hide Reserve, DecideReservation, Observe, MergeObservations, HasReadyRegistration;
    if IsDriving(a) {
      DrivePublishes(w, a, env, path);
    } else if IsCatching(a) {
      CatchPublishesNothing(w, a, env, path);
    } else if IsCompensation(a) {
      CompensatePublishesNothing(w, a, env, path);
    } else if IsReconciling(a) {
      RecoverPublishesNothing(w, a, env, path);
    } else if a.Acting? {
      ActPublishesNothing(w, a, env, path);
    }
  }

  /** A public file that is not there appears in a step if and only if that step is a rename to it. */
  lemma FinalsAppearByRename(w: World, e: Event, path: string)
    requires FinalFile(path) !in w.files
    ensures FinalFile(path) in Next(w, e).files <==> IsRename(w, e, path)
  {
    hide ActorStep, Execute, NeedsRecovery, WriteOf;
    if e.Proceed? && e.i < |w.actors| {
      StepPublishes(w, w.actors[e.i], e.env, path);
    } else if e.TimeOut? && e.i < |w.actors| {
      StepPublishes(w, w.actors[e.i], e.env.(works := false), path);
    }
  }

  // ---------------------------------------------------------------------------------------------
  // Finals of condemned jobs
  // ---------------------------------------------------------------------------------------------

  ghost predicate HasRenamer(w: World, path: string) {
    exists i :: 0 <= i < |w.actors| && IsRenamer(w.actors[i], path)
  }

  /** No call comes to the brink of renaming to the file of a condemned job. */
  lemma NoNewRenamer(w: World, e: Event, path: string)
    requires IsGood(w) && IsLegal(w, e) && IsCondemned(w.store, path)
    requires FinalFile(path) !in w.files && !HasRenamer(w, path)
    ensures IsCondemned(Next(w, e).store, path) && !HasRenamer(Next(w, e), path)
  {
    hide IsGood, IsLegal, IsStoreLater, IsCondemned, ActorStep, Execute, NeedsRecovery, InFlight, WriteOf;
    EventIsGood(w, e);
    assert IsStoreLater(w.store, Next(w, e).store);
    LaterStaysCondemned(w.store, Next(w, e).store, path);
    if e.Proceed? && e.i < |w.actors| {
      StepPublishes(w, w.actors[e.i], e.env, path);
      if IsRenamer(Next(w, e).actors[e.i], path) {
        RenamerIsNotCondemned(Next(w, e), e.i, w.actors[e.i].job.request.jobId, path);
      }
    } else if e.TimeOut? && e.i < |w.actors| {
      StepPublishes(w, w.actors[e.i], e.env.(works := false), path);
    }
  }

  lemma RenamerIsNotCondemned(w: World, i: nat, jobId: string, path: string)
    requires IsGood(w) && i < |w.actors| && IsRenamer(w.actors[i], path)
    requires Lookup(w.store.jobs, jobId) == Some(w.actors[i].job)
    ensures !IsCondemned(w.store, path)
  {
    hide IsIndexed, IsRegistered, IsLinked, HasReadyFiles, IsCondemned, IsSnapshot;
    assert IsSafe(w.store, w.files, w.actors[i]);
    ReadyIsNotCondemned(w.store, jobId);
  }

  lemma {:induction false} WithoutRenamerStaysAway(w: World, path: string, es: seq<Event>)
    requires IsGood(w) && IsLegalRun(w, es) && IsCondemned(w.store, path)
    requires FinalFile(path) !in w.files && !HasRenamer(w, path)
    ensures var after := RunAll(w, es);
            && IsGood(after) && IsCondemned(after.store, path)
            && FinalFile(path) !in after.files && !HasRenamer(after, path)
  {
    hide IsGood, IsLegal, IsCondemned, Next;
    if es != [] {
      var front, e := es[..|es| - 1], es[|es| - 1];
      WithoutRenamerStaysAway(w, path, front);
      var mid := RunAll(w, front);
      NoNewRenamer(mid, e, path);
      FinalsAppearByRename(mid, e, path);
      RenamesHaveRenamers(mid, e, path);
      RunsStayGood(w, es);
    }
  }

  lemma RenamesHaveRenamers(w: World, e: Event, path: string)
    ensures IsRename(w, e, path) ==> HasRenamer(w, path)
  {
  }

  lemma RenamerBringsItBack(w: World, i: nat, path: string, env: Env) returns (es: seq<Event>)
    requires i < |w.actors| && IsRenamer(w.actors[i], path) && env.works
    ensures IsLegalRun(w, es) && FinalFile(path) in RunAll(w, es).files
  {
    var e, f := Disturb(TempOf(w.actors[i].job), true), Proceed(i, env);
    var mid := Next(w, e);
    assert mid.actors == w.actors && TempOf(w.actors[i].job) in mid.files;
    OneStep(w, e);
    OneStep(mid, f);
    RunsCompose(w, [e], [f]);
    if FinalFile(path) !in mid.files {
      FinalsAppearByRename(mid, f, path);
    } else {
      RenameKeeps(mid, i, path, env);
    }
    hide Next, RunAll, IsLegalRun;
    es := [e] + [f];
  }

  lemma RenameKeeps(w: World, i: nat, path: string, env: Env)
    requires i < |w.actors| && IsRenamer(w.actors[i], path) && FinalFile(path) in w.files
    ensures FinalFile(path) in Next(w, Proceed(i, env)).files
  {
  }

  /**
   The removed file of a job in compensation, compensated or on the way there, stays away whatever happens
   if and only if no call stands before a rename to it. Whether that call's output is there does not
   matter: the image worker may still bring it.
   */
  lemma RemovedFinalStaysAwayExactly(w: World, path: string)
    requires IsGood(w) && IsCondemned(w.store, path) && FinalFile(path) !in w.files
    ensures (forall es: seq<Event> :: IsLegalRun(w, es) ==> FinalFile(path) !in RunAll(w, es).files)
            <==> !HasRenamer(w, path)
  {
    hide IsGood, IsCondemned, RunAll, IsLegalRun, Next, IsRenamer;
    if HasRenamer(w, path) {
      var i :| 0 <= i < |w.actors| && IsRenamer(w.actors[i], path);
      var env := Env(
        true, false, true, "", 0, 0, "", 0, 0, FinalFile(path), Capacity(0, 0));
      var es := RenamerBringsItBack(w, i, path, env);
    } else {
      forall es: seq<Event> | IsLegalRun(w, es)
        ensures FinalFile(path) !in RunAll(w, es).files
      {
        WithoutRenamerStaysAway(w, path, es);
      }
    }
  }
}
