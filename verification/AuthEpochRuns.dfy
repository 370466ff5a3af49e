/** What the authentication epoch promises over whole runs. */
module AuthEpochRuns {
  import opened Outcomes
  import opened AuthStores
  import opened AuthEpoch

  lemma ArrivalIsGood(w: World, a: Actor)
    requires IsGood(w) && IsActorGood(w.shared, a)
    ensures IsGood(w.(actors := w.actors + [a]))
  {
    hide IsSharedGood, IsActorGood;
  }

  /** A password was right. */
  lemma UserIsGood(w: World, userId: int)
    requires IsGood(w)
    ensures var next := w.(shared := w.shared.(users := w.shared.users + {userId}));
            IsGood(next) && IsLater(w.shared, next.shared)
  {
    var shared := w.shared.(users := w.shared.users + {userId});
    LaterKeepsSessions(w.shared, shared);
    TokensIgnoreSessions(w.shared, shared);
    hide IsLater, HasCurrentTokens, HasWrittenTokens, HasDistinctValidators, HasDatedSelectors, HasRestoredOnce,
         HasRootedSessions, IsActorGood;
    forall i | 0 <= i < |w.actors|
      ensures IsActorGood(shared, w.actors[i])
    {
      LaterKeepsActor(w.shared, shared, w.actors[i]);
    }
  }

  lemma ProceedIsGood(w: World, i: nat, env: Env)
    requires IsGood(w) && IsLegal(w, Proceed(i, env))
    ensures IsGood(Next(w, Proceed(i, env))) && IsLater(w.shared, Next(w, Proceed(i, env)).shared)
  {
    hide IsSharedGood, IsActorGood, Step, IsLater;
    if i < |w.actors| {
      StepIsGood(w.shared, w.actors[i], env);
      var next := Next(w, Proceed(i, env));
      forall j | 0 <= j < |w.actors|
        ensures IsActorGood(next.shared, w.actors[j])
      {
        LaterKeepsActor(w.shared, next.shared, w.actors[j]);
      }
    } else {
      StandingStill(w.shared);
    }
  }

  lemma EventIsGood(w: World, e: Event)
    requires IsGood(w) && IsLegal(w, e)
    ensures IsGood(Next(w, e)) && IsLater(w.shared, Next(w, e).shared)
  {
    StandingStill(w.shared);
    hide HasCurrentTokens, HasWrittenTokens, HasDistinctValidators, HasDatedSelectors, HasRestoredOnce;
    match e {
      case StartLogin(userId) =>
        UserIsGood(w, userId);
        ArrivalIsGood(w.(shared := w.shared.(users := w.shared.users + {userId})), LoggingIn(userId));
      case StartRestore(selector, validator) => ArrivalIsGood(w, Restoring(selector, validator));
      case StartReset(k) =>
        if k < |w.shared.accepted| {
          assert w.shared.accepted[k] in w.shared.accepted;
          ArrivalIsGood(w, Resetting(w.shared.accepted[k].session));
        }
      case StartCheck(id) => ArrivalIsGood(w, Reading(id));
      case StartLogout(k) =>
        if k < |w.shared.accepted| {
          var session := w.shared.accepted[k].session;
          EndsGood(w.shared, Some(session.id), session.rememberSelector, None, 0);
          ArrivalIsGood(w, Removing(Some(session.id), session.rememberSelector, Returned(None, 0)));
        }
      case Proceed(i, env) => ProceedIsGood(w, i, env);
      case Crash(i) =>
        assert IsActorGood(w.shared, Returned(None, 0));
        hide IsActorGood, IsSharedGood;
    }
  }

  lemma {:induction false} RunsStayGood(es: seq<Event>)
    requires IsLegalRun(EmptyWorld, es)
    ensures IsGood(RunAll(EmptyWorld, es))
  {
    hide IsGood, Next, IsLegal;
    if es == [] {
      EmptyIsGood();
    } else {
      RunsStayGood(es[..|es| - 1]);
      EventIsGood(RunAll(EmptyWorld, es[..|es| - 1]), es[|es| - 1]);
    }
  }

  lemma EmptyIsGood()
    ensures IsGood(EmptyWorld)
  {
  }

  lemma LaterIsTransitive(a: Shared, b: Shared, c: Shared)
    requires IsLater(a, b) && IsLater(b, c)
    ensures IsLater(a, c)
  {
  }

  lemma {:induction false} RunsMoveForward(es: seq<Event>, n: nat)
    requires n <= |es| && IsLegalRun(EmptyWorld, es)
    ensures IsLegalRun(EmptyWorld, es[..n])
    ensures IsLater(RunAll(EmptyWorld, es[..n]).shared, RunAll(EmptyWorld, es).shared)
    decreases |es|
  {
    hide IsGood, Next, IsLegal, IsLater;
    if n == |es| {
      assert es[..n] == es;
      RunsStayGood(es);
      SharedOfGood(RunAll(EmptyWorld, es));
      StandingStill(RunAll(EmptyWorld, es).shared);
    } else {
      var front := es[..|es| - 1];
      RunsMoveForward(front, n);
      assert front[..n] == es[..n];
      RunsStayGood(front);
      EventIsGood(RunAll(EmptyWorld, front), es[|es| - 1]);
      LaterIsTransitive(
        RunAll(EmptyWorld, es[..n]).shared, RunAll(EmptyWorld, front).shared, RunAll(EmptyWorld, es).shared);
    }
  }

  lemma SharedOfGood(w: World)
    requires IsGood(w)
    ensures IsSharedGood(w.shared)
  {
  }

  // ---------------------------------------------------------------------------------------------
  // The promises
  // ---------------------------------------------------------------------------------------------

  /** Whatever interleaves with a reset: every stored token was born in the current epoch. */
  lemma StoredTokensAreCurrent(es: seq<Event>, selector: string)
    requires IsLegalRun(EmptyWorld, es)
    requires selector in RunAll(EmptyWorld, es).shared.credentials.tokens
    ensures var c := RunAll(EmptyWorld, es).shared.credentials; c.tokens[selector].bornEpoch == c.epoch
  {
    hide RunAll, IsLegalRun;
    RunsStayGood(es);
  }

  /** A validator that has restored a session never restores another. */
  lemma ValidatorsRestoreOnce(es: seq<Event>, i: nat, j: nat)
    requires IsLegalRun(EmptyWorld, es) && i < j < |RunAll(EmptyWorld, es).shared.restored|
    ensures var restored := RunAll(EmptyWorld, es).shared.restored; restored[i] != restored[j]
  {
    hide RunAll, IsLegalRun;
    RunsStayGood(es);
  }

  /** Made from a credential of `epoch`, and naming a token of `epoch` if any. */
  predicate IsOfEpoch(s: Shared, session: Session, epoch: int) {
    && session.authEpoch == epoch
    && (session.origin.Remembered? ==> session.origin.bornEpoch == epoch)
    && (session.rememberSelector.Some? ==>
          session.rememberSelector.value in s.births && s.births[session.rememberSelector.value] == epoch)
  }

  /**
   A session accepted after moment n is of the epoch current at its acceptance, which is no earlier than
   the one at n, and so are the credential it came from and the token it names.
   */
  lemma AcceptedSessionsAreCurrent(es: seq<Event>, n: nat, k: nat)
    requires n <= |es| && IsLegalRun(EmptyWorld, es)
    requires |RunAll(EmptyWorld, es[..n]).shared.accepted| <= k < |RunAll(EmptyWorld, es).shared.accepted|
    ensures var s := RunAll(EmptyWorld, es).shared;
            && RunAll(EmptyWorld, es[..n]).shared.credentials.epoch <= s.accepted[k].epoch
            && IsOfEpoch(s, s.accepted[k].session, s.accepted[k].epoch)
  {
    hide RunAll, IsLegalRun, HasCurrentTokens, HasDistinctValidators, HasDatedSelectors, HasRestoredOnce;
    RunsStayGood(es);
    RunsMoveForward(es, n);
    var s := RunAll(EmptyWorld, es).shared;
    assert s.accepted[k] in s.accepted;
  }

  /** Once a selector's epoch is over, no token is stored under it and no session naming it is accepted. */
  lemma RevokedForGood(es: seq<Event>, n: nat, selector: string)
    requires n <= |es| && IsLegalRun(EmptyWorld, es)
    requires var s := RunAll(EmptyWorld, es[..n]).shared;
             selector in s.births && s.births[selector] < s.credentials.epoch
    ensures var before := RunAll(EmptyWorld, es[..n]).shared;
            var s := RunAll(EmptyWorld, es).shared;
            && selector !in s.credentials.tokens
            && forall k | |before.accepted| <= k < |s.accepted| ::
                 s.accepted[k].session.rememberSelector != Some(selector)
  {
    RunsStayGood(es);
    RunsMoveForward(es, n);
    hide RunAll, IsLegalRun, HasDistinctValidators, HasDatedSelectors, HasRestoredOnce;
    var before := RunAll(EmptyWorld, es[..n]).shared;
    var s := RunAll(EmptyWorld, es).shared;
    forall k | |before.accepted| <= k < |s.accepted|
      ensures s.accepted[k].session.rememberSelector != Some(selector)
    {
      AcceptedSessionsAreCurrent(es, n, k);
    }
  }

  /** A call that was told of an epoch returns no session of an earlier one. */
  lemma NoKnownStaleSessionIsReturned(es: seq<Event>, i: nat)
    requires IsLegalRun(EmptyWorld, es) && i < |RunAll(EmptyWorld, es).actors|
    requires RunAll(EmptyWorld, es).actors[i].Returned? && RunAll(EmptyWorld, es).actors[i].outcome.Some?
    ensures var a := RunAll(EmptyWorld, es).actors[i]; a.seenEpoch <= a.outcome.value.authEpoch
  {
    RunsStayGood(es);
    hide RunAll, IsLegalRun, IsSharedGood;
    var w := RunAll(EmptyWorld, es);
    assert IsActorGood(w.shared, w.actors[i]);
  }

  // ---------------------------------------------------------------------------------------------
  // Whose sessions there are
  // ---------------------------------------------------------------------------------------------

  /** The session is stored, has been accepted, or is in the hands of a call. */
  predicate HasSession(w: World, session: Session) {
    || (exists id | id in w.shared.sessions :: w.shared.sessions[id] == session)
    || (exists a | a in w.shared.accepted :: a.session == session)
    || (exists i | 0 <= i < |w.actors| :: session in Held(w.actors[i]))
  }

  lemma {:induction false} UsersHaveLoggedIn(es: seq<Event>, userId: int)
    requires userId in RunAll(EmptyWorld, es).shared.users
    ensures StartLogin(userId) in es
  {
    if es != [] {
      var before := RunAll(EmptyWorld, es[..|es| - 1]);
      UsersOnlyLogIn(before, es[|es| - 1], userId);
      hide Next;
      if userId in before.shared.users {
        UsersHaveLoggedIn(es[..|es| - 1], userId);
      }
    }
  }

  lemma UsersOnlyLogIn(w: World, e: Event, userId: int)
    requires userId in Next(w, e).shared.users
    ensures userId in w.shared.users || e == StartLogin(userId)
  {
    hide CreateToken, RestoreToken, ResetAll, DeleteToken;
  }

  /**
   No session exists for a user who has not shown the password; and a remembered one was made for the
   very user its selector's token was made for, strictly before the expiry last written for it.
   */
  lemma SessionsAreEarned(es: seq<Event>, session: Session)
    requires IsLegalRun(EmptyWorld, es) && HasSession(RunAll(EmptyWorld, es), session)
    ensures StartLogin(session.userId) in es
    ensures session.origin.Remembered? ==>
              && session.userId == session.origin.writing.userId
              && session.origin.madeAtMs < session.origin.writing.expiresAtMs
  {
    hide RunAll, IsLegalRun, HasCurrentTokens, HasDistinctValidators, HasDatedSelectors, HasRestoredOnce;
    RunsStayGood(es);
    var w := RunAll(EmptyWorld, es);
    assert IsRooted(w.shared, session) by {
      if i :| 0 <= i < |w.actors| && session in Held(w.actors[i]) {
        assert IsActorGood(w.shared, w.actors[i]);
      }
    }
    UsersHaveLoggedIn(es, session.userId);
  }

  /** What is stored was written last, and a session is accepted only if read before its expiry. */
  lemma NothingOutlivesItsExpiry(es: seq<Event>)
    requires IsLegalRun(EmptyWorld, es)
    ensures var s := RunAll(EmptyWorld, es).shared;
            && (forall sel | sel in s.credentials.tokens ::
                  && sel in s.written
                  && s.credentials.tokens[sel].expiresAtMs == s.written[sel].expiresAtMs
                  && s.credentials.tokens[sel].userId == s.written[sel].userId)
            && (forall a | a in s.accepted :: a.readMs < a.session.expiresAtMs)
  {
    hide RunAll, IsLegalRun, HasCurrentTokens, HasDistinctValidators, HasDatedSelectors, HasRestoredOnce;
    RunsStayGood(es);
  }

  // ---------------------------------------------------------------------------------------------
  // A call returns its own session
  // ---------------------------------------------------------------------------------------------

  predicate IsLoginOf(a: Actor, userId: int) {
    match a
    case LoggingIn(user) => user == userId
    case LoggingInAgain(user, _) => user == userId
    case Returned(_, _) => true
    case Removing(_, _, result) => result.Returned?
    case _ =>
      || a.Establishing? || a.CreatingToken? || a.SavingRemembered? || a.ForgettingToken? || a.DroppingStale?
      || a.EstablishingAgain?
  }

  predicate IsRestorationOf(a: Actor, selector: string, validator: string) {
    match a
    case Restoring(sel, v) => sel == selector && v == validator
    case Removing(_, _, result) => result.Returned?
    case _ => a.FindingUser? || a.SavingRestored? || a.Returned?
  }

  predicate IsCheckOf(a: Actor, id: string) {
    match a
    case Reading(sessionId) => sessionId == id
    case Removing(_, _, result) => result.Returned?
    case _ => a.Comparing? || a.FindingOwner? || a.Returned?
  }

  predicate IsReset(a: Actor) {
    match a
    case Removing(_, _, result) => result.Returned?
    case _ => a.Resetting? || a.SavingReset? || a.Returned?
  }

  /** The call that `start` has begun holds sessions of its own user, credential or id alone. */
  predicate IsOwn(start: Event, accepted: seq<Acceptance>, a: Actor) {
    match start
    case StartLogin(userId) =>
      && IsLoginOf(a, userId)
      && forall session | session in Held(a) :: session.userId == userId && session.origin.Password?
    case StartRestore(selector, validator) =>
      && IsRestorationOf(a, selector, validator)
      && forall session | session in Held(a) ::
           && session.rememberSelector == Some(selector)
           && session.origin.Remembered? && session.origin.validator == validator
    case StartReset(k) =>
      && k < |accepted| && IsReset(a)
      && forall session | session in Held(a) :: session.userId == accepted[k].session.userId
    case StartCheck(id) =>
      IsCheckOf(a, id) && forall session | session in Held(a) :: session.id == id
    case StartLogout(_) => Held(a) == {} && (a.Returned? || (a.Removing? && a.result.Returned?))
    case _ => true
  }

  predicate IsKeyedById(s: Shared) {
    forall id | id in s.sessions :: s.sessions[id].id == id
  }

  lemma StepKeepsKeys(s: Shared, a: Actor, env: Env)
    requires IsKeyedById(s)
    ensures IsKeyedById(Step(s, a, env).shared)
  {
    hide CreateToken, RestoreToken, ResetAll, DeleteToken;
  }

  lemma StepKeepsOwn(s: Shared, start: Event, accepted: seq<Acceptance>, a: Actor, env: Env)
    requires IsKeyedById(s) && IsOwn(start, accepted, a)
    ensures IsOwn(start, accepted, Step(s, a, env).actor)
  {
    var next := Step(s, a, env).actor;
    assert next.Removing? ==> Held(next) == Held(next.result);
    hide CreateToken, ResetAll, DeleteToken, Save;
    match start {
      case StartLogin(userId) =>
        if a.DroppingStale? || a.SavingRemembered? || a.ForgettingToken? {
          assert a.established in Held(a);
        }
        if a.Establishing? || a.CreatingToken? || a.SavingRemembered? || a.EstablishingAgain? {
          assert a.session in Held(a);
        }
      case StartReset(k) =>
        if a.Resetting? || a.SavingReset? {
          assert a.session in Held(a);
        }
      case StartRestore(_, _) =>
        if a.FindingUser? || a.SavingRestored? {
          assert a.session in Held(a);
        }
      case StartCheck(_) =>
        if a.Comparing? || a.FindingOwner? {
          assert a.session in Held(a);
        }
      case StartLogout(_) => assert a.Removing? ==> Held(a) == Held(a.result);
      case _ =>
    }
  }

  lemma {:induction false} RunsKeepKeys(es: seq<Event>)
    ensures IsKeyedById(RunAll(EmptyWorld, es).shared)
  {
    hide Step;
    if es != [] {
      RunsKeepKeys(es[..|es| - 1]);
      var w := RunAll(EmptyWorld, es[..|es| - 1]);
      var e := es[|es| - 1];
      if e.Proceed? && e.i < |w.actors| {
        StepKeepsKeys(w.shared, w.actors[e.i], e.env);
      }
    }
  }

  lemma {:induction false} CallsComeOneByOne(es: seq<Event>, n: nat)
    requires n <= |es|
    ensures |RunAll(EmptyWorld, es[..n]).actors| <= |RunAll(EmptyWorld, es).actors|
  {
    if n == |es| {
      assert es[..n] == es;
    } else {
      CallsComeOneByOne(es[..|es| - 1], n);
      assert es[..|es| - 1][..n] == es[..n];
      hide Step;
    }
  }

  /**
   Whatever interleaves, the call begun by the n-th event deals in its own sessions: a login returns one
   of the user who logged in, a restoration one of the cookie's selector and validator, a reset one of
   the administrator who asked for it, a check the session it was asked for, and a logout none.
   */
  lemma {:induction false} CallsReturnTheirOwn(es: seq<Event>, n: nat)
    requires n < |es|
    requires |RunAll(EmptyWorld, es[..n]).actors| < |RunAll(EmptyWorld, es[..n + 1]).actors|
    ensures var before := RunAll(EmptyWorld, es[..n]);
            && |before.actors| < |RunAll(EmptyWorld, es).actors|
            && IsOwn(es[n], before.shared.accepted, RunAll(EmptyWorld, es).actors[|before.actors|])
    decreases |es|
  {
    var before := RunAll(EmptyWorld, es[..n]);
    CallsComeOneByOne(es, n + 1);
    if n + 1 == |es| {
      assert es[..n + 1] == es && es[..|es| - 1] == es[..n];
      BegunIsOwn(before, es[n]);
    } else {
      var front := es[..|es| - 1];
      assert front[..n] == es[..n] && front[..n + 1] == es[..n + 1];
      CallsReturnTheirOwn(front, n);
      RunsKeepKeys(front);
      NextKeepsOwn(RunAll(EmptyWorld, front), es[|es| - 1], |before.actors|, es[n], before.shared.accepted);
    }
  }

  lemma BegunIsOwn(w: World, e: Event)
    requires |w.actors| < |Next(w, e).actors|
    ensures IsOwn(e, w.shared.accepted, Next(w, e).actors[|w.actors|])
  {
    hide Step;
    assert e.StartLogout? ==> Held(Next(w, e).actors[|w.actors|]) == Held(Returned(None, 0));
  }

  lemma NextKeepsOwn(w: World, e: Event, i: nat, start: Event, accepted: seq<Acceptance>)
    requires i < |w.actors| && IsKeyedById(w.shared) && IsOwn(start, accepted, w.actors[i])
    ensures IsOwn(start, accepted, Next(w, e).actors[i])
  {
    hide Step, IsKeyedById;
    if e.Proceed? && e.i == i {
      hide IsOwn;
      StepKeepsOwn(w.shared, start, accepted, w.actors[i], e.env);
    }
  }
}
