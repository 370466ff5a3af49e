/** Runs from the empty world, and stretches of them in which one call alone takes its steps. */
module ImageProtocolDrives {
  import opened Outcomes
  import opened ImageJobPolicy
  import opened ImageJobEffects
  import opened ImageStores
  import opened ImageStoreAgreement
  import opened ImageProtocol
  import opened ImageProtocolSafety
  import opened ImageProtocolRuns

  /** Steps of call i that all fare as `env` says; removals started together complete in some order. */
  predicate IsDrive(i: nat, env: Env, es: seq<Event>) {
    forall e | e in es :: e.Proceed? && e.i == i && e.env == env.(file := e.env.file)
  }

  /** Call i takes `w` to `next` in n steps that all fare as `env` says. */
  ghost predicate Drives(w: World, i: nat, env: Env, n: nat, next: World) {
    exists es: seq<Event> :: |es| == n && IsDrive(i, env, es) && IsLegalRun(w, es) && RunAll(w, es) == next
  }

  ghost predicate IsReached(w: World) {
    exists es: seq<Event> :: IsLegalRun(EmptyWorld, es) && RunAll(EmptyWorld, es) == w
  }

  /** The world after a step of call i. */
  function Moved(w: World, i: nat, s: Store, files: set<File>, a: Actor): World
    requires i < |w.actors|
  {
    World(s, files, w.strays, w.actors[i := a])
  }

  lemma LastMoveCounts(w: World, i: nat, s: Store, files: set<File>, a: Actor, t: Store, left: set<File>, b: Actor)
    requires i < |w.actors|
    ensures Moved(Moved(w, i, s, files, a), i, t, left, b) == Moved(w, i, t, left, b)
  {
  }

  /** Call i is at `a`, and `job` is the row of its id. */
  predicate IsCurrent(w: World, i: nat, a: Actor, job: ImageJob) {
    && i < |w.actors| && w.actors[i] == a
    && Lookup(w.store.jobs, job.request.jobId) == Some(job)
  }

  lemma {:induction false} RunsCompose(w: World, es: seq<Event>, more: seq<Event>)
    requires IsLegalRun(w, es) && IsLegalRun(RunAll(w, es), more)
    ensures IsLegalRun(w, es + more)
    ensures RunAll(w, es + more) == RunAll(RunAll(w, es), more)
    decreases |more|
  {
    hide Next, IsLegal;
    if more == [] {
      assert es + more == es;
    } else {
      var front := more[..|more| - 1];
      RunsCompose(w, es, front);
      assert (es + more)[..|es + more| - 1] == es + front;
    }
  }

  lemma DriveStarts(w: World, i: nat, env: Env)
    ensures Drives(w, i, env, 0, w)
  {
    var none: seq<Event> := [];
    assert |none| == 0 && IsDrive(i, env, none) && IsLegalRun(w, none) && RunAll(w, none) == w;
  }

  lemma OneStep(w: World, e: Event)
    requires IsLegal(w, e)
    ensures IsLegalRun(w, [e]) && RunAll(w, [e]) == Next(w, e)
  {
    hide Next, IsLegal;
    assert [e][..0] == [];
    assert IsLegalRun(w, []) && RunAll(w, []) == w;
  }

  lemma DrivesOnce(w: World, i: nat, env: Env, file: File)
    requires IsLegal(w, Proceed(i, env.(file := file)))
    ensures Drives(w, i, env, 1, Next(w, Proceed(i, env.(file := file))))
  {
    hide Next, IsLegal, RunAll, IsLegalRun;
    var e := Proceed(i, env.(file := file));
    OneStep(w, e);
    assert |[e]| == 1 && IsDrive(i, env, [e]);
  }

  /** A call that has reserved its job may always take its next step. */
  lemma Moves(w: World, i: nat, env: Env, file: File, next: World)
    requires i < |w.actors| && !IsReserving(w.actors[i]) && next == Next(w, Proceed(i, env.(file := file)))
    ensures Drives(w, i, env, 1, next)
  {
    DrivesOnce(w, i, env, file);
    hide Next;
  }

  lemma DrivesCompose(w: World, i: nat, env: Env, n: nat, mid: World, m: nat, next: World)
    requires Drives(w, i, env, n, mid) && Drives(mid, i, env, m, next)
    ensures Drives(w, i, env, n + m, next)
  {
    hide RunAll, IsLegalRun;
    var es :| |es| == n && IsDrive(i, env, es) && IsLegalRun(w, es) && RunAll(w, es) == mid;
    var more :| |more| == m && IsDrive(i, env, more) && IsLegalRun(mid, more) && RunAll(mid, more) == next;
    RunsCompose(w, es, more);
    assert |es + more| == n + m && IsDrive(i, env, es + more);
  }

  /** The next step of a call that has reserved its job, with `file` as the removal that completes. */
  lemma DrivesOn(w: World, i: nat, env: Env, n: nat, mid: World, file: File)
    requires Drives(w, i, env, n, mid) && i < |mid.actors| && !IsReserving(mid.actors[i])
    ensures Drives(w, i, env, n + 1, Next(mid, Proceed(i, env.(file := file))))
    ensures file == env.file ==> env.(file := file) == env
  {
    hide Next, Drives;
    var next := Next(mid, Proceed(i, env.(file := file)));
    Moves(mid, i, env, file, next);
    DrivesCompose(w, i, env, n, mid, 1, next);
  }

  lemma DrivesStayGood(w: World, i: nat, env: Env, n: nat, next: World)
    requires IsGood(w) && Drives(w, i, env, n, next)
    ensures IsGood(next)
  {
    hide RunAll, IsLegalRun, IsGood, IsDrive;
    var es :| |es| == n && IsDrive(i, env, es) && IsLegalRun(w, es) && RunAll(w, es) == next;
    RunsStayGood(w, es);
  }

  lemma EmptyIsReached()
    ensures IsReached(EmptyWorld)
  {
    assert IsLegalRun(EmptyWorld, []) && RunAll(EmptyWorld, []) == EmptyWorld;
  }

  lemma ReachedOn(w: World, e: Event)
    requires IsReached(w) && IsLegal(w, e)
    ensures IsReached(Next(w, e))
  {
    hide Next, IsLegal, RunAll, IsLegalRun;
    var es :| IsLegalRun(EmptyWorld, es) && RunAll(EmptyWorld, es) == w;
    OneStep(w, e);
    RunsCompose(EmptyWorld, es, [e]);
  }

  /** A step of a call that has reserved its job. */
  lemma ReachedMoves(w: World, i: nat, env: Env, next: World)
    requires IsReached(w) && i < |w.actors| && !IsReserving(w.actors[i]) && next == Next(w, Proceed(i, env))
    ensures IsReached(next)
  {
    hide Next, IsReached;
    ReachedOn(w, Proceed(i, env));
  }

  lemma ReachedThrough(w: World, i: nat, env: Env, n: nat, next: World)
    requires IsReached(w) && Drives(w, i, env, n, next)
    ensures IsReached(next)
  {
    hide RunAll, IsLegalRun;
    var es :| IsLegalRun(EmptyWorld, es) && RunAll(EmptyWorld, es) == w;
    var more :| |more| == n && IsDrive(i, env, more) && IsLegalRun(w, more) && RunAll(w, more) == next;
    RunsCompose(EmptyWorld, es, more);
  }

  lemma ReachedIsGood(w: World)
    requires IsReached(w)
    ensures IsGood(w)
  {
    hide RunAll, IsLegalRun, IsGood;
    var es :| IsLegalRun(EmptyWorld, es) && RunAll(EmptyWorld, es) == w;
    EmptyIsGood();
    RunsStayGood(EmptyWorld, es);
  }

  lemma GoodAgrees(w: World)
    requires IsGood(w)
    ensures Agrees(w.store)
  {
    hide Agrees, HasReadyFiles, IsSafe;
  }

  lemma CurrentIsSound(s: Store, job: ImageJob)
    requires Agrees(s) && Lookup(s.jobs, job.request.jobId) == Some(job)
    ensures IsSound(job)
  {
    RowsAreSound(s, job.request.jobId);
    hide IsSound, IsIndexed, IsRegistered, IsLinked;
  }

  // ---------------------------------------------------------------------------------------------
  // Single calls
  // ---------------------------------------------------------------------------------------------

  lemma Commanded(s: Store, job: ImageJob, atMs: int, a: Action, env: Env, next: ImageJob)
    requires Lookup(s.jobs, job.request.jobId) == Some(job) && env.works && !env.replyLost
    requires Transition(job, Command(job.version, atMs, a)) == Ok(next)
    ensures CallTransition(s, job, atMs, a, env) == Reply(WithRow(s, job.request.jobId, next), Ok(next))
  {
    hide Transition;
  }

  lemma Refused(s: Store, job: ImageJob, atMs: int, a: Action, env: Env, e: PolicyError)
    requires Lookup(s.jobs, job.request.jobId) == Some(job) && env.works
    requires Transition(job, Command(job.version, atMs, a)) == Err(e)
    ensures CallTransition(s, job, atMs, a, env) == Reply(s, Err(PolicyCodeOf(e)))
  {
    hide Transition, PolicyCodeOf;
  }

  lemma IsRowOf(s: Store, id: string, job: ImageJob)
    ensures Lookup(WithRow(s, id, job).jobs, id) == Some(job)
  {
  }

  lemma SameRow(s: Store, job: ImageJob)
    requires Lookup(s.jobs, job.request.jobId) == Some(job)
    ensures WithRow(s, job.request.jobId, job) == s
  {
  }

  lemma LastRowCounts(s: Store, jobId: string, first: ImageJob, last: ImageJob)
    ensures WithRow(WithRow(s, jobId, first), jobId, last) == WithRow(s, jobId, last)
  {
  }

  /** A step of #driveImageJob, as the world sees it. */
  lemma DriveSeen(w: World, i: nat, env: Env)
    requires i < |w.actors|
    requires
      var a := w.actors[i];
      || a.Driving? || a.Claiming? || a.Executing? || a.RecordingOutput? || a.BeginningPublication?
      || a.Renaming? || a.MarkingReady?
    ensures var o := DriveStep(w, w.actors[i], env);
            Next(w, Proceed(i, env)) == World(o.store, o.files, o.strays, w.actors[i := o.actor])
  {
    hide DriveStep;
  }

  /** A step of #compensatePublishedJob, as the world sees it. */
  lemma CompensateSeen(w: World, i: nat, env: Env)
    requires i < |w.actors| && IsCompensation(w.actors[i])
    ensures var o := CompensateStep(w, w.actors[i], env);
            Next(w, Proceed(i, env)) == World(o.store, o.files, o.strays, w.actors[i := o.actor])
  {
    hide CompensateStep;
  }
}
