/** What one authentication call comes to, step after step, when nothing interferes between its steps. */
module AuthEpochCalls {
  import opened Outcomes
  import opened AuthStores
  import opened AuthEpoch

  function Alone(s: Shared, a: Actor, envs: seq<Env>): Outcome
    decreases |envs|
  {
    if envs == [] then Outcome(s, a)
    else
      var o := Step(s, a, envs[0]);
      Alone(o.shared, o.actor, envs[1..])
  }

  lemma FirstStep(s: Shared, a: Actor, e: Env, envs: seq<Env>)
    ensures Alone(s, a, [e] + envs) == Alone(Step(s, a, e).shared, Step(s, a, e).actor, envs)
  {
    assert ([e] + envs)[1..] == envs;
  }

  lemma TwoSteps(s: Shared, a: Actor, e0: Env, e1: Env)
    ensures Alone(s, a, [e0, e1]) == Step(Step(s, a, e0).shared, Step(s, a, e0).actor, e1)
  {
    hide Step;
    assert [e0] + [e1] == [e0, e1] && [e1] + [] == [e1];
    FirstStep(s, a, e0, [e1]);
    FirstStep(Step(s, a, e0).shared, Step(s, a, e0).actor, e1, []);
  }

  lemma ThreeSteps(s: Shared, a: Actor, e0: Env, e1: Env, e2: Env)
    ensures var o0 := Step(s, a, e0);
            var o1 := Step(o0.shared, o0.actor, e1);
            Alone(s, a, [e0, e1, e2]) == Step(o1.shared, o1.actor, e2)
  {
    hide Step;
    var o0 := Step(s, a, e0);
    assert [e0] + [e1, e2] == [e0, e1, e2];
    FirstStep(s, a, e0, [e1, e2]);
    TwoSteps(o0.shared, o0.actor, e1, e2);
  }

  lemma FourSteps(s: Shared, a: Actor, e0: Env, e1: Env, e2: Env, e3: Env)
    ensures var o0 := Step(s, a, e0);
            var o1 := Step(o0.shared, o0.actor, e1);
            var o2 := Step(o1.shared, o1.actor, e2);
            Alone(s, a, [e0, e1, e2, e3]) == Step(o2.shared, o2.actor, e3)
  {
    hide Step;
    var o0 := Step(s, a, e0);
    assert [e0] + [e1, e2, e3] == [e0, e1, e2, e3];
    FirstStep(s, a, e0, [e1, e2, e3]);
    ThreeSteps(o0.shared, o0.actor, e1, e2, e3);
  }

  const THIRTY_DAYS_MS := 2_592_000_000

  predicate IsStored(s: Shared, session: Session) {
    session.id in s.sessions && s.sessions[session.id] == session
  }

  /** The stored token is for this user, opens with this validator and lasts until then. */
  predicate HasToken(s: Shared, selector: string, userId: int, validator: string, expiresAtMs: int) {
    && selector in s.credentials.tokens
    && var token := s.credentials.tokens[selector];
       && token.userId == userId && token.validatorHash == Sha256(validator) && token.expiresAtMs == expiresAtMs
  }

  /** Nothing but this selector's token differs. */
  predicate OnlyTokenMoves(s: Shared, next: Shared, selector: string) {
    && next.credentials.epoch == s.credentials.epoch
    && next.credentials.tokens - {selector} == s.credentials.tokens - {selector}
  }

  // ---------------------------------------------------------------------------------------------
  // Restoration
  // ---------------------------------------------------------------------------------------------

  /** The cookie is worth a session: the token's validator, before the token's expiry. */
  predicate IsGoodCookie(s: Shared, selector: string, validator: string, nowMs: int) {
    && selector in s.credentials.tokens
    && s.credentials.tokens[selector].validatorHash == Sha256(validator)
    && nowMs < s.credentials.tokens[selector].expiresAtMs
  }

  /**
   A restoration returns a session exactly for a good cookie whose user exists, if the rotation, the look
   for the user and the session's write all work; then the token has a new validator and thirty more days.
   */
  lemma RestoreOutcome(s: Shared, selector: string, validator: string, e0: Env, e1: Env, e2: Env, e3: Env)
    ensures var o := Alone(s, Restoring(selector, validator), [e0, e1, e2, e3]);
            && o.actor.Returned?
            && (o.actor.outcome.Some? <==>
                  && IsGoodCookie(s, selector, validator, e0.nowMs)
                  && e0.works && e1.works && e1.userFound && e2.works)
            && (o.actor.outcome.Some? ==>
                  && var session := o.actor.outcome.value;
                     && IsStored(o.shared, session) && session.id == e0.id
                     && session.userId == s.credentials.tokens[selector].userId
                     && session.authEpoch == s.credentials.epoch && session.rememberSelector == Some(selector)
                     && session.expiresAtMs == e0.nowMs + e0.sessionTtlMs
                     && HasToken(
                          o.shared, selector, session.userId, e0.validator, e0.nowMs + THIRTY_DAYS_MS))
  {
    FourSteps(s, Restoring(selector, validator), e0, e1, e2, e3);
    hide Alone, LoginStep, ResetStep, ResetAll, CreateToken;
  }

  /** Executed or not, a restoration touches its own token alone, and an executed one uses its validator up. */
  lemma RestoreUsesUp(s: Shared, selector: string, validator: string, e0: Env, e1: Env, e2: Env, e3: Env)
    requires e0.validator != validator
    ensures var o := Alone(s, Restoring(selector, validator), [e0, e1, e2, e3]);
            && OnlyTokenMoves(s, o.shared, selector)
            && (!e0.works && !e0.replyLost ==> o.shared == s)
            && (e0.works || e0.replyLost ==> forall nowMs :: !IsGoodCookie(o.shared, selector, validator, nowMs))
  {
    FourSteps(s, Restoring(selector, validator), e0, e1, e2, e3);
    hide Alone, LoginStep, ResetStep, ResetAll, CreateToken;
  }

  /**
   A bad cookie costs the token, and so do a missing user and a failed write of the session unless their
   clean-up fails too; a failed look for the user leaves it.
   */
  lemma RestoreCleansUp(s: Shared, selector: string, validator: string, e0: Env, e1: Env, e2: Env, e3: Env)
    requires e0.works || e0.replyLost
    ensures var o := Alone(s, Restoring(selector, validator), [e0, e1, e2, e3]);
            selector in o.shared.credentials.tokens <==>
              && IsGoodCookie(s, selector, validator, e0.nowMs)
              && (e0.works && e1.works && !e1.userFound ==> !e2.removesToken)
              && (e0.works && e1.works && e1.userFound && !e2.works ==> !e3.removesToken)
  {
    FourSteps(s, Restoring(selector, validator), e0, e1, e2, e3);
    hide Alone, LoginStep, ResetStep, ResetAll, CreateToken;
  }

  // ---------------------------------------------------------------------------------------------
  // Login
  // ---------------------------------------------------------------------------------------------

  /**
   An undisturbed login returns a session exactly when the epoch is read and the session written; the
   session is remembered exactly when the token is made and the session written again. A token that no
   returned session names is left over only if its making was not answered, or its removal failed.
   */
  lemma LoginOutcome(s: Shared, userId: int, e0: Env, e1: Env, e2: Env, e3: Env, e4: Env)
    requires e2.selector !in s.credentials.tokens
    ensures var before := Alone(s, LoggingIn(userId), [e0, e1, e2, e3]);
            var o := Step(before.shared, before.actor, e4);
            && o.actor.Returned?
            && (o.actor.outcome.Some? <==> e0.works && e1.works)
            && (o.actor.outcome.Some? ==>
                  && var session := o.actor.outcome.value;
                     && session.userId == userId && session.authEpoch == s.credentials.epoch
                     && session.id == e0.id && session.expiresAtMs == e0.nowMs + e0.sessionTtlMs
                     && (session.rememberSelector == if e2.works && e3.works then Some(e2.selector) else None)
                     && (IsStored(o.shared, session) || (e2.works && !e3.works && e3.replyLost)))
            && o.shared.sessions - {e0.id} == s.sessions - {e0.id}
            && (e0.id in o.shared.sessions <==> e0.id in s.sessions || (e0.works && (e1.works || e1.replyLost)))
            && OnlyTokenMoves(s, o.shared, e2.selector)
            && (e2.selector in o.shared.credentials.tokens <==>
                  && e0.works && e1.works
                  && (if e2.works then e3.works || !e4.removesToken else e2.replyLost))
            && (e2.selector in o.shared.credentials.tokens ==>
                  HasToken(o.shared, e2.selector, userId, e2.validator, e2.nowMs + THIRTY_DAYS_MS))
  {
    FourSteps(s, LoggingIn(userId), e0, e1, e2, e3);
    hide Alone, RestoreStep, ResetStep, ResetAll, RestoreToken;
  }

  /**
   A login overtaken by a reset before its token was made, whose second session is written: it returns
   that one, of the newer epoch, and the first is removed.
   */
  lemma OvertakenLoginOutcome(s: Shared, established: Session, e0: Env, e1: Env, e2: Env)
    requires established.authEpoch < s.credentials.epoch && e0.works && e0.id != established.id && e1.works
    ensures var o := Alone(s, CreatingToken(established), [e0, e1, e2]);
            && o.actor.Returned? && o.actor.outcome.Some?
            && var session := o.actor.outcome.value;
               && IsStored(o.shared, session) && session.id == e0.id && session.userId == established.userId
               && session.authEpoch == s.credentials.epoch && session.rememberSelector == Some(e0.selector)
               && (established.id in o.shared.sessions <==> established.id in s.sessions && !e2.removesSession)
               && HasToken(
                    o.shared, e0.selector, session.userId, e0.validator, e0.nowMs + THIRTY_DAYS_MS)
  {
    ThreeSteps(s, CreatingToken(established), e0, e1, e2);
    hide Alone, RestoreStep, ResetStep, ResetAll, RestoreToken;
  }

  /** Without that write the token goes, the stale session goes, and the password logs in once more. */
  lemma StaleLoginStartsAgain(s: Shared, established: Session, e0: Env, e1: Env, e2: Env, e3: Env)
    requires established.authEpoch < s.credentials.epoch && e0.works && e0.id != established.id && !e1.works
    ensures var o := Alone(s, CreatingToken(established), [e0, e1, e2, e3]);
            && o.actor == LoggingInAgain(established.userId, s.credentials.epoch)
            && o.shared.credentials.epoch == s.credentials.epoch
            && (e0.selector in o.shared.credentials.tokens <==> !e2.removesToken)
            && (established.id in o.shared.sessions <==> established.id in s.sessions && !e3.removesSession)
  {
    FourSteps(s, CreatingToken(established), e0, e1, e2, e3);
    hide Alone, RestoreStep, ResetStep, ResetAll, RestoreToken;
  }

  lemma LoginAgainOutcome(s: Shared, userId: int, createdEpoch: int, e0: Env, e1: Env)
    ensures var o := Alone(s, LoggingInAgain(userId, createdEpoch), [e0, e1]);
            && o.actor.Returned? && o.shared.credentials == s.credentials
            && (o.actor.outcome.Some? <==> e0.works && e1.works)
            && (o.actor.outcome.Some? ==>
                  && var session := o.actor.outcome.value;
                     && IsStored(o.shared, session) && session.userId == userId
                     && session.authEpoch == s.credentials.epoch && session.rememberSelector.None?)
  {
    TwoSteps(s, LoggingInAgain(userId, createdEpoch), e0, e1);
    hide Alone;
  }

  // ---------------------------------------------------------------------------------------------
  // Reset
  // ---------------------------------------------------------------------------------------------

  /**
   An administrator's reset returns a session of the next epoch exactly when the reset and the write of
   that session both work; the one new token is then the only one. Every other outcome returns nothing.
   */
  lemma ResetOutcome(s: Shared, session: Session, e0: Env, e1: Env, e2: Env)
    requires session.id in s.sessions && e0.id != session.id
    ensures var o := Alone(s, Resetting(session), [e0, e1, e2]);
            var isDone := s.credentials.epoch < MAX_SAFE_INTEGER && (e0.works || e0.replyLost);
            && o.actor.Returned?
            && (o.actor.outcome.Some? <==> isDone && e0.works && e1.works)
            && (o.actor.outcome.Some? ==>
                  && var renewed := o.actor.outcome.value;
                     && IsStored(o.shared, renewed) && renewed.userId == session.userId
                     && renewed.authEpoch == s.credentials.epoch + 1 && renewed.rememberSelector == Some(e0.selector)
                     && o.shared.credentials.tokens.Keys == {e0.selector}
                     && HasToken(
                          o.shared, e0.selector, session.userId, e0.validator, e0.nowMs + THIRTY_DAYS_MS))
            && (!isDone ==> o.shared.credentials == s.credentials)
            && (isDone ==>
                  && o.shared.credentials.epoch == s.credentials.epoch + 1
                  && o.shared.credentials.tokens.Keys <= {e0.selector})
  {
    ThreeSteps(s, Resetting(session), e0, e1, e2);
    hide Alone, LoginStep, RestoreStep, RestoreToken;
  }

  /** The old session goes in every case, unless its removal fails. */
  lemma ResetRemovesSession(s: Shared, session: Session, e0: Env, e1: Env, e2: Env)
    requires session.id in s.sessions && e0.id != session.id
    ensures var o := Alone(s, Resetting(session), [e0, e1, e2]);
            var removal := if s.credentials.epoch < MAX_SAFE_INTEGER && e0.works then e2 else e1;
            session.id in o.shared.sessions <==> !removal.removesSession
  {
    ThreeSteps(s, Resetting(session), e0, e1, e2);
    hide Alone, LoginStep, RestoreStep, RestoreToken, CreateToken;
  }

  /** An executed reset leaves its token, unless the browser could not be given it and the clean-up works. */
  lemma ResetCleansUp(s: Shared, session: Session, e0: Env, e1: Env, e2: Env)
    requires s.credentials.epoch < MAX_SAFE_INTEGER && (e0.works || e0.replyLost)
    ensures var o := Alone(s, Resetting(session), [e0, e1, e2]);
            e0.selector in o.shared.credentials.tokens <==> e1.works || !e0.works || !e2.removesToken
  {
    ThreeSteps(s, Resetting(session), e0, e1, e2);
    hide Alone, LoginStep, RestoreStep, RestoreToken;
  }

  // ---------------------------------------------------------------------------------------------
  // Check
  // ---------------------------------------------------------------------------------------------

  /**
   A session is returned exactly when it is stored, unexpired, of the current epoch and its user exists,
   and all three looks work; one of another epoch or without a user is removed if its removal works.
   */
  lemma CheckOutcome(s: Shared, id: string, e0: Env, e1: Env, e2: Env, e3: Env)
    ensures var o := Alone(s, Reading(id), [e0, e1, e2, e3]);
            var isRead := e0.works && id in s.sessions && e0.nowMs < s.sessions[id].expiresAtMs;
            && o.actor.Returned?
            && (o.actor.outcome.Some? <==>
                  && isRead && e1.works && s.sessions[id].authEpoch == s.credentials.epoch
                  && e2.works && e2.userFound)
            && (o.actor.outcome.Some? ==> o.actor.outcome == Some(s.sessions[id]) && o.shared.sessions == s.sessions)
            && (isRead && e1.works && s.sessions[id].authEpoch != s.credentials.epoch && s.sessions[id].id == id ==>
                  (id in o.shared.sessions <==> !e2.removesSession))
            && o.shared.credentials == s.credentials
  {
    FourSteps(s, Reading(id), e0, e1, e2, e3);
    hide Alone, LoginStep, RestoreStep, ResetStep, RestoreToken, ResetAll;
  }

  // ---------------------------------------------------------------------------------------------
  // Logout
  // ---------------------------------------------------------------------------------------------

  /** A logout removes the session and the token it names, each unless its own removal fails, and nothing else. */
  lemma LogoutOutcome(w: World, k: nat, env: Env)
    requires k < |w.shared.accepted|
    ensures var session := w.shared.accepted[k].session;
            var s, left := w.shared, Next(Next(w, StartLogout(k)), Proceed(|w.actors|, env)).shared;
            && left.sessions == (if env.removesSession then s.sessions - {session.id} else s.sessions)
            && left.credentials.tokens
               == (if env.removesToken && session.rememberSelector.Some?
                   then s.credentials.tokens - {session.rememberSelector.value} else s.credentials.tokens)
            && left.credentials.epoch == s.credentials.epoch
  {
    hide LoginStep, RestoreStep, ResetStep, RestoreToken, ResetAll, CreateToken;
  }
}
