/**
 Login, restoration, rotation, reset, logout and session checks, interleaved at their `await` points with
 lost replies, failed writes and crashes. No credential of an earlier epoch is worth anything.
 */
module AuthEpoch {
  import opened Outcomes
  import opened AuthStores

  const REMEMBER_LIFETIME_MS := 30 * 24 * 60 * 60 * 1000

  /** The user for whom a selector's token was made, and the expiry last written for it. */
  datatype Writing = Writing(userId: int, expiresAtMs: int)

  /** History that no step reads: which credential a session was made from, and when. */
  datatype Origin =
    | Password
    | Remembered(validator: string, bornEpoch: int, madeAtMs: int, writing: Writing)
    | ByReset

  datatype Session = Session(
    id: string, userId: int, authEpoch: int, rememberSelector: Option<string>, expiresAtMs: int, origin: Origin)

  /** getSession, which read `session` at `readMs`, found it of the current epoch `epoch`. */
  datatype Acceptance = Acceptance(session: Session, epoch: int, readMs: int)

  /**
   The shared state; the fields after the second are history: the epoch each selector was created in,
   what was last written for it, every random value drawn so far, the validators that have restored, the
   sessions accepted, the users whose password was right.
   */
  datatype Shared = Shared(
    credentials: Credentials,
    sessions: map<string, Session>,
    births: map<string, int>,
    written: map<string, Writing>,
    issued: set<string>,
    restored: seq<string>,
    accepted: seq<Acceptance>,
    users: set<int>)

  /** One call stopped before its next effect. `seenEpoch` is the latest epoch the call has been told. */
  datatype Actor =
    | Returned(outcome: Option<Session>, seenEpoch: int)
    // #establishWithRemember
    | LoggingIn(userId: int)
    | Establishing(session: Session)
    | CreatingToken(session: Session)
    | SavingRemembered(established: Session, session: Session)
    | ForgettingToken(established: Session, session: Session)
    | DroppingStale(established: Session, createdEpoch: int)
    | LoggingInAgain(userId: int, createdEpoch: int)
    | EstablishingAgain(session: Session, createdEpoch: int)
    // restoreRemember
    | Restoring(selector: string, validator: string)
    | FindingUser(session: Session)
    | SavingRestored(session: Session)
    // resetAllSessions
    | Resetting(session: Session)
    | SavingReset(previous: Session, session: Session)
    // logout, and every other best-effort removal before the call ends
    | Removing(oldSession: Option<string>, oldSelector: Option<string>, result: Actor)
    // getSession
    | Reading(sessionId: string)
    | Comparing(session: Session, readMs: int)
    | FindingOwner(session: Session)

  datatype Env = Env(
    works: bool,
    replyLost: bool,
    nowMs: int,
    sessionTtlMs: int,
    userFound: bool,
    removesSession: bool,
    removesToken: bool,
    id: string,
    selector: string,
    validator: string)

  datatype Outcome = Outcome(shared: Shared, actor: Actor)

  datatype World = World(shared: Shared, actors: seq<Actor>)

  // ---------------------------------------------------------------------------------------------
  // Steps
  // ---------------------------------------------------------------------------------------------

  function NewSession(userId: int, selector: Option<string>, epoch: int, origin: Origin, env: Env): Session {
    Session(env.id, userId, epoch, selector, env.nowMs + env.sessionTtlMs, origin)
  }

  /** sessions.set: a failed write may still have happened. */
  function Save(s: Shared, session: Session, env: Env): Shared {
    if env.works || env.replyLost then s.(sessions := s.sessions[session.id := session]) else s
  }

  function LoginStep(s: Shared, a: Actor, env: Env): Outcome
    requires
      || a.LoggingIn? || a.Establishing? || a.CreatingToken? || a.SavingRemembered? || a.ForgettingToken?
      || a.DroppingStale? || a.LoggingInAgain? || a.EstablishingAgain?
  {
    match a
    case LoggingIn(userId) =>
      if env.works
      then Outcome(s, Establishing(NewSession(userId, None, s.credentials.epoch, Password, env)))
      else Outcome(s, Returned(None, 0))
    case Establishing(session) =>
      Outcome(Save(s, session, env), if env.works then CreatingToken(session) else Returned(None, 0))
    case CreatingToken(established) =>
      var token := NewToken(established.userId, env.selector, Sha256(env.validator), env.nowMs + REMEMBER_LIFETIME_MS);
      var created := s.(
        credentials := CreateToken(s.credentials, token),
        births := s.births[env.selector := s.credentials.epoch],
        written := s.written[env.selector := Writing(established.userId, token.expiresAtMs)]);
      if !env.works then
        Outcome(if env.replyLost then created else s, Returned(Some(established), established.authEpoch))
      else
        var epoch := s.credentials.epoch;
        Outcome(
          created,
          SavingRemembered(
            established,
            if epoch == established.authEpoch then established.(rememberSelector := Some(env.selector))
            else NewSession(established.userId, Some(env.selector), epoch, Password, env)))
    case SavingRemembered(established, session) =>
      Outcome(
        Save(s, session, env),
        if !env.works then ForgettingToken(established, session)
        else if session.id != established.id
        then Removing(Some(established.id), None, Returned(Some(session), session.authEpoch))
        else Returned(Some(session), session.authEpoch))
    case ForgettingToken(established, session) =>
      var left := if env.removesToken && session.rememberSelector.Some?
                  then s.(credentials := DeleteToken(s.credentials, session.rememberSelector.value))
                  else s;
      Outcome(
        left,
        if session.authEpoch != established.authEpoch then DroppingStale(established, session.authEpoch)
        else Returned(Some(established), session.authEpoch))
    case DroppingStale(established, createdEpoch) =>
      Outcome(
        if env.removesSession then s.(sessions := s.sessions - {established.id}) else s,
        LoggingInAgain(established.userId, createdEpoch))
    case LoggingInAgain(userId, createdEpoch) =>
      if env.works
      then
        Outcome(s, EstablishingAgain(NewSession(userId, None, s.credentials.epoch, Password, env), createdEpoch))
      else Outcome(s, Returned(None, createdEpoch))
    case EstablishingAgain(session, createdEpoch) =>
      Outcome(
        Save(s, session, env),
        if env.works then Returned(Some(session), createdEpoch) else Returned(None, createdEpoch))
  }

  function LastWritten(s: Shared, selector: string): Writing {
    if selector in s.written then s.written[selector] else Writing(0, 0)
  }

  /** A validator has restored, and the token has a new one and a new expiry. */
  function WithRotation(s: Shared, credentials: Credentials, selector: string, validator: string, env: Env): Shared {
    s.(
      credentials := credentials,
      written := s.written[
        selector := Writing(LastWritten(s, selector).userId, env.nowMs + REMEMBER_LIFETIME_MS)],
      restored := s.restored + [validator])
  }

  function RestoreStep(s: Shared, a: Actor, env: Env): Outcome
    requires a.Restoring? || a.FindingUser? || a.SavingRestored?
  {
    match a
    case Restoring(selector, validator) =>
      if !env.works && !env.replyLost then Outcome(s, Returned(None, 0))
      else
        var input := RestoreInput(
                       selector, Sha256(validator), Sha256(env.validator), env.nowMs, env.nowMs + REMEMBER_LIFETIME_MS);
        var (credentials, restoration) := RestoreToken(s.credentials, input);
        (match restoration
         case Invalid => Outcome(s.(credentials := credentials), Returned(None, 0))
         case Rotated(userId, _, epoch) =>
           var origin :=
             Remembered(validator, s.credentials.tokens[selector].bornEpoch, env.nowMs, LastWritten(s, selector));
           Outcome(
             WithRotation(s, credentials, selector, validator, env),
             if env.works then FindingUser(NewSession(userId, Some(selector), epoch, origin, env))
             else Returned(None, 0)))
    case FindingUser(session) =>
      if !env.works then Outcome(s, Returned(None, 0))
      else if !env.userFound then Outcome(s, Removing(None, session.rememberSelector, Returned(None, 0)))
      else Outcome(s, SavingRestored(session))
    case SavingRestored(session) =>
      Outcome(
        Save(s, session, env),
        if env.works then Returned(Some(session), session.authEpoch)
        else Removing(None, session.rememberSelector, Returned(None, session.authEpoch)))
  }

  function ResetStep(s: Shared, a: Actor, env: Env): Outcome
    requires a.Resetting? || a.SavingReset?
  {
    match a
    case Resetting(session) =>
      var token := NewToken(session.userId, env.selector, Sha256(env.validator), env.nowMs + REMEMBER_LIFETIME_MS);
      var failed := Removing(Some(session.id), None, Returned(None, 0));
      if !env.works && !env.replyLost then Outcome(s, failed)
      else
        (match ResetAll(s.credentials, token)
         case Err(_) => Outcome(s, failed)
         case Ok(credentials) =>
           var epoch := credentials.epoch;
           Outcome(
             s.(
               credentials := credentials,
               births := s.births[env.selector := epoch],
               written := s.written[env.selector := Writing(session.userId, token.expiresAtMs)]),
             if env.works
             then SavingReset(session, NewSession(session.userId, Some(env.selector), epoch, ByReset, env))
             else failed))
    case SavingReset(previous, session) =>
      Outcome(
        Save(s, session, env),
        if env.works then Removing(Some(previous.id), None, Returned(Some(session), session.authEpoch))
        else Removing(Some(previous.id), session.rememberSelector, Returned(None, session.authEpoch)))
  }

  function CheckStep(s: Shared, a: Actor, env: Env): Outcome
    requires a.Reading? || a.Comparing? || a.FindingOwner? || a.Removing?
  {
    match a
    case Reading(id) =>
      if env.works && id in s.sessions && env.nowMs < s.sessions[id].expiresAtMs
      then Outcome(s, Comparing(s.sessions[id], env.nowMs))
      else Outcome(s, Returned(None, 0))
    case Comparing(session, readMs) =>
      if !env.works then Outcome(s, Returned(None, 0))
      else if session.authEpoch != s.credentials.epoch
      then Outcome(s, Removing(Some(session.id), None, Returned(None, 0)))
      else
        Outcome(
          s.(accepted := s.accepted + [Acceptance(session, s.credentials.epoch, readMs)]),
          FindingOwner(session))
    case FindingOwner(session) =>
      Outcome(
        s,
        if !env.works then Returned(None, 0)
        else if env.userFound then Returned(Some(session), session.authEpoch)
        else Removing(Some(session.id), None, Returned(None, 0)))
    case Removing(id, selector, result) =>
      var left := if env.removesSession && id.Some? then s.(sessions := s.sessions - {id.value}) else s;
      Outcome(
        if env.removesToken && selector.Some?
        then left.(credentials := DeleteToken(s.credentials, selector.value)) else left,
        result)
  }

  function Step(s: Shared, a: Actor, env: Env): Outcome {
    match a
    case Returned(_, _) => Outcome(s, a)
    case Restoring(_, _) => RestoreStep(s, a, env)
    case FindingUser(_) => RestoreStep(s, a, env)
    case SavingRestored(_) => RestoreStep(s, a, env)
    case Resetting(_) => ResetStep(s, a, env)
    case SavingReset(_, _) => ResetStep(s, a, env)
    case Reading(_) => CheckStep(s, a, env)
    case Comparing(_, _) => CheckStep(s, a, env)
    case FindingOwner(_) => CheckStep(s, a, env)
    case Removing(_, _, _) => CheckStep(s, a, env)
    case _ => LoginStep(s, a, env)
  }

  // ---------------------------------------------------------------------------------------------
  // Runs
  // ---------------------------------------------------------------------------------------------

  datatype Event =
    | StartLogin(userId: int)
    | StartRestore(selector: string, validator: string)   // any cookie, held or guessed
    | StartReset(k: nat)                                  // by the k-th session ever accepted
    | StartCheck(sessionId: string)
    | StartLogout(k: nat)
    | Proceed(i: nat, env: Env)
    | Crash(i: nat)

  function Drawn(env: Env): set<string> {
    {env.id, env.selector, env.validator}
  }

  function Next(w: World, e: Event): World {
    match e
    case StartLogin(userId) =>
      World(w.shared.(users := w.shared.users + {userId}), w.actors + [LoggingIn(userId)])
    case StartRestore(selector, validator) => w.(actors := w.actors + [Restoring(selector, validator)])
    case StartReset(k) =>
      if k < |w.shared.accepted| then w.(actors := w.actors + [Resetting(w.shared.accepted[k].session)]) else w
    case StartCheck(id) => w.(actors := w.actors + [Reading(id)])
    case StartLogout(k) =>
      if k < |w.shared.accepted|
      then
        var session := w.shared.accepted[k].session;
        w.(actors := w.actors + [Removing(Some(session.id), session.rememberSelector, Returned(None, 0))])
      else w
    case Proceed(i, env) =>
      if i < |w.actors|
      then
        var o := Step(w.shared, w.actors[i], env);
        World(o.shared.(issued := o.shared.issued + Drawn(env)), w.actors[i := o.actor])
      else w
    case Crash(i) => if i < |w.actors| then w.(actors := w.actors[i := Returned(None, 0)]) else w
  }

  /** Random values do not repeat. */
  predicate IsLegal(w: World, e: Event) {
    e.Proceed? ==>
      && Drawn(e.env) !! w.shared.issued
      && e.env.id != e.env.selector && e.env.selector != e.env.validator && e.env.validator != e.env.id
  }

  const EmptyWorld := World(Shared(Credentials(0, map[]), map[], map[], map[], {}, [], [], {}), [])

  function RunAll(w: World, es: seq<Event>): World {
    if es == [] then w else Next(RunAll(w, es[..|es| - 1]), es[|es| - 1])
  }

  predicate IsLegalRun(w: World, es: seq<Event>) {
    es != [] ==>
      IsLegalRun(w, es[..|es| - 1]) && IsLegal(RunAll(w, es[..|es| - 1]), es[|es| - 1])
  }

  // ---------------------------------------------------------------------------------------------
  // The invariant
  // ---------------------------------------------------------------------------------------------

  /**
   A session was made in its own epoch, for a user who has shown the password, from a credential of that
   same epoch; a remembered one for the token's own user and before the token's expiry.
   */
  predicate IsRooted(s: Shared, session: Session) {
    && session.authEpoch <= s.credentials.epoch
    && session.userId in s.users
    && (session.rememberSelector.Some? ==>
          && session.rememberSelector.value in s.births
          && s.births[session.rememberSelector.value] == session.authEpoch)
    && (session.origin.Remembered? ==>
          && session.origin.bornEpoch == session.authEpoch
          && session.origin.writing.userId == session.userId
          && session.origin.madeAtMs < session.origin.writing.expiresAtMs)
  }

  /** A stored token is of a user who has shown the password, and as it was last written. */
  predicate HasWrittenTokens(s: Shared) {
    && (forall sel | sel in s.credentials.tokens ::
          && sel in s.written
          && s.credentials.tokens[sel].userId == s.written[sel].userId
          && s.credentials.tokens[sel].expiresAtMs == s.written[sel].expiresAtMs)
    && (forall sel | sel in s.written :: s.written[sel].userId in s.users)
  }

  /** Every stored token was born in the current epoch, and its validator has never restored. */
  predicate HasCurrentTokens(s: Shared) {
    forall sel | sel in s.credentials.tokens ::
      && s.credentials.tokens[sel].bornEpoch == s.credentials.epoch
      && sel in s.births && s.births[sel] == s.credentials.epoch
      && s.credentials.tokens[sel].validatorHash.text in s.issued
      && s.credentials.tokens[sel].validatorHash.text !in s.restored
  }

  predicate HasDistinctValidators(s: Shared) {
    forall sel, other | sel in s.credentials.tokens && other in s.credentials.tokens && sel != other ::
      s.credentials.tokens[sel].validatorHash != s.credentials.tokens[other].validatorHash
  }

  predicate HasDatedSelectors(s: Shared) {
    forall sel | sel in s.births :: sel in s.issued && s.births[sel] <= s.credentials.epoch
  }

  predicate HasRootedSessions(s: Shared) {
    && (forall id | id in s.sessions :: IsRooted(s, s.sessions[id]))
    && (forall a | a in s.accepted ::
          IsRooted(s, a.session) && a.session.authEpoch == a.epoch && a.readMs < a.session.expiresAtMs)
  }

  predicate HasRestoredOnce(s: Shared) {
    && (forall v | v in s.restored :: v in s.issued)
    && (forall i, j | 0 <= i < j < |s.restored| :: s.restored[i] != s.restored[j])
  }

  predicate IsSharedGood(s: Shared) {
    && HasCurrentTokens(s)
    && HasWrittenTokens(s)
    && HasDistinctValidators(s)
    && HasDatedSelectors(s)
    && HasRootedSessions(s)
    && HasRestoredOnce(s)
  }

  function Held(a: Actor): set<Session> {
    match a
    case Returned(session, _) => if session.Some? then {session.value} else {}
    case LoggingIn(_) => {}
    case Establishing(session) => {session}
    case CreatingToken(session) => {session}
    case SavingRemembered(established, session) => {established, session}
    case ForgettingToken(established, session) => {established, session}
    case DroppingStale(established, _) => {established}
    case LoggingInAgain(_, _) => {}
    case EstablishingAgain(session, _) => {session}
    case Restoring(_, _) => {}
    case FindingUser(session) => {session}
    case SavingRestored(session) => {session}
    case Resetting(session) => {session}
    case SavingReset(previous, session) => {previous, session}
    case Removing(_, _, result) => Held(result)
    case Reading(_) => {}
    case Comparing(session, _) => {session}
    case FindingOwner(session) => {session}
  }

  /** A login that has learned of a newer epoch does not return a session of an older one. */
  predicate ReturnsNothingStale(s: Shared, a: Actor) {
    match a
    case Returned(session, seenEpoch) => session.Some? ==> seenEpoch <= session.value.authEpoch
    case DroppingStale(_, createdEpoch) => createdEpoch <= s.credentials.epoch
    case LoggingInAgain(_, createdEpoch) => createdEpoch <= s.credentials.epoch
    case EstablishingAgain(session, createdEpoch) => createdEpoch <= session.authEpoch
    case Removing(_, _, result) => ReturnsNothingStale(s, result)
    case _ => true
  }

  /** A login is for a user who has shown the password, and a session goes on only if unexpired when read. */
  predicate IsForItsUser(s: Shared, a: Actor) {
    match a
    case LoggingIn(userId) => userId in s.users
    case LoggingInAgain(userId, _) => userId in s.users
    case Comparing(session, readMs) => readMs < session.expiresAtMs
    case Removing(_, _, result) => IsForItsUser(s, result)
    case _ => true
  }

  predicate IsActorGood(s: Shared, a: Actor) {
    && (forall session | session in Held(a) :: IsRooted(s, session))
    && ReturnsNothingStale(s, a)
    && IsForItsUser(s, a)
  }

  predicate IsGood(w: World) {
    IsSharedGood(w.shared) && forall i | 0 <= i < |w.actors| :: IsActorGood(w.shared, w.actors[i])
  }

  /** Epochs only grow, a selector keeps the epoch it was born in, and what is accepted is of today. */
  predicate IsLater(s: Shared, next: Shared) {
    && s.credentials.epoch <= next.credentials.epoch
    && (forall k | |s.accepted| <= k < |next.accepted| :: s.credentials.epoch <= next.accepted[k].epoch)
    && (forall sel | sel in s.births :: sel in next.births && next.births[sel] == s.births[sel])
    && s.restored <= next.restored && s.accepted <= next.accepted && s.users <= next.users
  }

  // ---------------------------------------------------------------------------------------------
  // Every step keeps it
  // ---------------------------------------------------------------------------------------------

  lemma LaterKeepsRoots(s: Shared, next: Shared, session: Session)
    requires IsLater(s, next) && IsRooted(s, session)
    ensures IsRooted(next, session)
  {
  }

  lemma LaterKeepsActor(s: Shared, next: Shared, a: Actor)
    requires IsLater(s, next) && IsActorGood(s, a)
    ensures IsActorGood(next, a)
  {
    hide Held, IsRooted;
    forall session | session in Held(a)
      ensures IsRooted(next, session)
    {
      LaterKeepsRoots(s, next, session);
    }
    LaterIsNotStale(s, next, a);
  }

  lemma LaterIsNotStale(s: Shared, next: Shared, a: Actor)
    requires s.credentials.epoch <= next.credentials.epoch && s.users <= next.users
    requires ReturnsNothingStale(s, a) && IsForItsUser(s, a)
    ensures ReturnsNothingStale(next, a) && IsForItsUser(next, a)
  {
  }

  lemma LaterKeepsSessions(s: Shared, next: Shared)
    requires HasRootedSessions(s) && IsLater(s, next)
    requires next.sessions == s.sessions && next.accepted == s.accepted
    ensures HasRootedSessions(next)
  {
    hide IsRooted;
    forall id | id in s.sessions
      ensures IsRooted(next, s.sessions[id])
    {
      LaterKeepsRoots(s, next, s.sessions[id]);
    }
    forall a | a in s.accepted
      ensures IsRooted(next, a.session)
    {
      LaterKeepsRoots(s, next, a.session);
    }
  }

  /** What any step may leave of the shared state. */
  predicate IsGoodMove(s: Shared, next: Shared) {
    IsSharedGood(next) && IsLater(s, next)
  }

  lemma DrawingIsGood(s: Shared, drawn: set<string>)
    requires IsSharedGood(s)
    ensures IsGoodMove(s, s.(issued := s.issued + drawn))
  {
    var next := s.(issued := s.issued + drawn);
    LaterKeepsSessions(s, next);
    hide HasRootedSessions, IsRooted;
  }

  lemma SavingIsGood(s: Shared, session: Session, env: Env)
    requires IsSharedGood(s) && IsRooted(s, session)
    ensures IsGoodMove(s, Save(s, session, env))
  {
    hide HasCurrentTokens, HasWrittenTokens, HasDistinctValidators, HasRestoredOnce;
    TokensIgnoreSessions(s, Save(s, session, env));
  }

  lemma TokensIgnoreSessions(s: Shared, next: Shared)
    requires s.credentials == next.credentials && s.births == next.births
    requires s.written == next.written && s.users <= next.users && HasWrittenTokens(s)
    requires s.issued == next.issued && s.restored == next.restored
    requires HasCurrentTokens(s) && HasDistinctValidators(s) && HasDatedSelectors(s) && HasRestoredOnce(s)
    ensures HasCurrentTokens(next) && HasDistinctValidators(next) && HasDatedSelectors(next)
    ensures HasRestoredOnce(next) && HasWrittenTokens(next)
  {
  }

  lemma RemovingSessionIsGood(s: Shared, id: string)
    requires IsSharedGood(s)
    ensures IsGoodMove(s, s.(sessions := s.sessions - {id}))
  {
    hide HasCurrentTokens, HasWrittenTokens, HasDistinctValidators, HasRestoredOnce;
    TokensIgnoreSessions(s, s.(sessions := s.sessions - {id}));
  }

  lemma RemovingTokenIsGood(s: Shared, selector: string)
    requires IsSharedGood(s)
    ensures IsGoodMove(s, s.(credentials := DeleteToken(s.credentials, selector)))
  {
    LaterKeepsSessions(s, s.(credentials := DeleteToken(s.credentials, selector)));
    hide HasRootedSessions, IsRooted;
  }

  lemma AcceptingIsGood(s: Shared, session: Session, readMs: int)
    requires readMs < session.expiresAtMs
    requires IsSharedGood(s) && IsRooted(s, session) && session.authEpoch == s.credentials.epoch
    ensures IsGoodMove(s, s.(accepted := s.accepted + [Acceptance(session, s.credentials.epoch, readMs)]))
  {
    var next := s.(accepted := s.accepted + [Acceptance(session, s.credentials.epoch, readMs)]);
    TokensIgnoreSessions(s, next);
    hide HasCurrentTokens, HasWrittenTokens, HasDistinctValidators, HasRestoredOnce;
  }

  function WithToken(s: Shared, credentials: Credentials, userId: int, env: Env): Shared {
    s.(
      credentials := credentials,
      births := s.births[env.selector := credentials.epoch],
      written := s.written[env.selector := Writing(userId, env.nowMs + REMEMBER_LIFETIME_MS)],
      issued := s.issued + Drawn(env))
  }

  predicate IsFresh(s: Shared, env: Env) {
    && Drawn(env) !! s.issued
    && env.id != env.selector && env.selector != env.validator && env.validator != env.id
  }

  lemma CreatingIsGood(s: Shared, token: NewToken, env: Env)
    requires IsSharedGood(s) && IsFresh(s, env)
    requires token.selector == env.selector && token.validatorHash == Sha256(env.validator)
    requires token.userId in s.users && token.expiresAtMs == env.nowMs + REMEMBER_LIFETIME_MS
    ensures IsGoodMove(s, WithToken(s, CreateToken(s.credentials, token), token.userId, env))
  {
    var next := WithToken(s, CreateToken(s.credentials, token), token.userId, env);
    assert env.selector !in s.births && env.validator !in s.restored;
    LaterKeepsSessions(s, next);
    hide HasRootedSessions, IsRooted;
  }

  /** A reset leaves no token of an earlier epoch behind. */
  lemma ResettingIsGood(s: Shared, token: NewToken, env: Env)
    requires IsSharedGood(s) && IsFresh(s, env) && ResetAll(s.credentials, token).Ok?
    requires token.selector == env.selector && token.validatorHash == Sha256(env.validator)
    requires token.userId in s.users && token.expiresAtMs == env.nowMs + REMEMBER_LIFETIME_MS
    ensures IsGoodMove(s, WithToken(s, ResetAll(s.credentials, token).value, token.userId, env))
  {
    var next := WithToken(s, ResetAll(s.credentials, token).value, token.userId, env);
    assert env.selector !in s.births && env.validator !in s.restored;
    LaterKeepsSessions(s, next);
    hide HasRootedSessions, IsRooted;
  }

  function Rotation(selector: string, validator: string, env: Env): RestoreInput {
    RestoreInput(selector, Sha256(validator), Sha256(env.validator), env.nowMs, env.nowMs + REMEMBER_LIFETIME_MS)
  }

  /** A restoration uses its validator up. */
  lemma RestoringIsGood(s: Shared, selector: string, validator: string, env: Env)
    requires IsSharedGood(s) && IsFresh(s, env)
    ensures var (credentials, r) := RestoreToken(s.credentials, Rotation(selector, validator, env));
            var next := if r.Rotated? then WithRotation(s, credentials, selector, validator, env)
                        else s.(credentials := credentials);
            && IsGoodMove(s, next.(issued := s.issued + Drawn(env)))
            && (r.Rotated? ==>
                  && r.selector == selector && r.authEpoch == s.credentials.epoch
                  && selector in s.births && s.births[selector] == s.credentials.epoch
                  && selector in s.credentials.tokens
                  && s.credentials.tokens[selector].bornEpoch == s.credentials.epoch
                  && r.userId in s.users && r.userId == LastWritten(s, selector).userId
                  && env.nowMs < LastWritten(s, selector).expiresAtMs)
  {
    var (credentials, r) := RestoreToken(s.credentials, Rotation(selector, validator, env));
    var moved := if r.Rotated? then WithRotation(s, credentials, selector, validator, env)
                 else s.(credentials := credentials);
    var next := moved.(issued := s.issued + Drawn(env));
    LaterKeepsSessions(s, next);
    hide HasRootedSessions, IsRooted;
    if r.Rotated? {
      assert s.credentials.tokens[selector].validatorHash.text == validator;
      assert env.validator !in s.restored;
    }
  }

  predicate IsGoodStep(s: Shared, o: Outcome, env: Env) {
    var drawn := o.shared.(issued := o.shared.issued + Drawn(env));
    IsGoodMove(s, drawn) && IsActorGood(drawn, o.actor)
  }

  lemma MovesCompose(a: Shared, b: Shared, c: Shared)
    requires IsGoodMove(a, b) && IsGoodMove(b, c)
    ensures IsGoodMove(a, c)
  {
    hide IsSharedGood;
  }

  /** A step that has moved well and leaves its call in order. */
  lemma StepOf(s: Shared, o: Outcome, env: Env)
    requires IsGoodMove(s, o.shared) && IsActorGood(o.shared, o.actor)
    ensures IsGoodStep(s, o, env)
  {
    hide IsSharedGood, IsActorGood, IsLater;
    var drawn := o.shared.(issued := o.shared.issued + Drawn(env));
    DrawingIsGood(o.shared, Drawn(env));
    MovesCompose(s, o.shared, drawn);
    LaterKeepsActor(o.shared, drawn, o.actor);
  }

  lemma StandingStill(s: Shared)
    requires IsSharedGood(s)
    ensures IsGoodMove(s, s)
  {
    hide IsSharedGood;
  }

  lemma EndsGood(s: Shared, id: Option<string>, selector: Option<string>, outcome: Option<Session>, seenEpoch: int)
    requires outcome.Some? ==> IsRooted(s, outcome.value) && seenEpoch <= outcome.value.authEpoch
    ensures IsActorGood(s, Removing(id, selector, Returned(outcome, seenEpoch)))
  {
    hide IsRooted;
    var last := Returned(outcome, seenEpoch);
    assert Held(Removing(id, selector, last)) == Held(last);
    assert ReturnsNothingStale(s, last) && IsForItsUser(s, last);
  }

  lemma LoginStepIsGood(s: Shared, a: Actor, env: Env)
    requires IsSharedGood(s) && IsActorGood(s, a) && IsFresh(s, env)
    requires a.LoggingIn? || a.Establishing? || a.SavingRemembered? || a.ForgettingToken?
    ensures IsGoodStep(s, LoginStep(s, a, env), env)
  {
    hide IsSharedGood, IsLater;
    StandingStill(s);
    if a.Establishing? || a.SavingRemembered? {
      assert a.session in Held(a);
      SavingIsGood(s, a.session, env);
      LaterKeepsActor(s, Save(s, a.session, env), a);
      if a.SavingRemembered? {
        EndsGood(
          Save(s, a.session, env), Some(a.established.id), None, Some(a.session), a.session.authEpoch);
      }
    } else if a.ForgettingToken? {
      assert a.session in Held(a) && a.established in Held(a);
      if a.session.rememberSelector.Some? {
        var left := s.(credentials := DeleteToken(s.credentials, a.session.rememberSelector.value));
        RemovingTokenIsGood(s, a.session.rememberSelector.value);
        LaterKeepsActor(s, left, a);
      }
    }
    StepOf(s, LoginStep(s, a, env), env);
  }

  lemma LoginAgainStepIsGood(s: Shared, a: Actor, env: Env)
    requires IsSharedGood(s) && IsActorGood(s, a) && IsFresh(s, env)
    requires a.DroppingStale? || a.LoggingInAgain? || a.EstablishingAgain?
    ensures IsGoodStep(s, LoginStep(s, a, env), env)
  {
    hide IsSharedGood, IsLater;
    StandingStill(s);
    if a.EstablishingAgain? {
      assert a.session in Held(a);
      SavingIsGood(s, a.session, env);
      LaterKeepsActor(s, Save(s, a.session, env), a);
    } else if a.DroppingStale? {
      assert a.established in Held(a);
      RemovingSessionIsGood(s, a.established.id);
    }
    StepOf(s, LoginStep(s, a, env), env);
  }

  lemma CreateStepIsGood(s: Shared, a: Actor, env: Env)
    requires IsSharedGood(s) && IsActorGood(s, a) && IsFresh(s, env) && a.CreatingToken?
    ensures IsGoodStep(s, LoginStep(s, a, env), env)
  {
    hide IsSharedGood, IsLater;
    assert a.session in Held(a);
    var token := NewToken(a.session.userId, env.selector, Sha256(env.validator), env.nowMs + REMEMBER_LIFETIME_MS);
    CreatingIsGood(s, token, env);
    DrawingIsGood(s, Drawn(env));
    LaterKeepsRoots(s, WithToken(s, CreateToken(s.credentials, token), token.userId, env), a.session);
    LaterKeepsRoots(s, s.(issued := s.issued + Drawn(env)), a.session);
  }

  lemma RestoreStepIsGood(s: Shared, a: Actor, env: Env)
    requires IsSharedGood(s) && IsActorGood(s, a) && IsFresh(s, env) && a.Restoring?
    ensures IsGoodStep(s, RestoreStep(s, a, env), env)
  {
    hide IsSharedGood, IsLater;
    RestoringIsGood(s, a.selector, a.validator, env);
    DrawingIsGood(s, Drawn(env));
    hide RestoreToken;
  }

  lemma RestoredStepIsGood(s: Shared, a: Actor, env: Env)
    requires IsSharedGood(s) && IsActorGood(s, a) && IsFresh(s, env) && (a.FindingUser? || a.SavingRestored?)
    ensures IsGoodStep(s, RestoreStep(s, a, env), env)
  {
    hide IsSharedGood, IsLater;
    StandingStill(s);
    assert a.session in Held(a);
    SavingIsGood(s, a.session, env);
    LaterKeepsActor(s, Save(s, a.session, env), a);
    EndsGood(s, None, a.session.rememberSelector, None, 0);
    EndsGood(Save(s, a.session, env), None, a.session.rememberSelector, None, a.session.authEpoch);
    StepOf(s, RestoreStep(s, a, env), env);
  }

  lemma ResetStepIsGood(s: Shared, a: Actor, env: Env)
    requires IsSharedGood(s) && IsActorGood(s, a) && IsFresh(s, env) && a.Resetting?
    ensures IsGoodStep(s, ResetStep(s, a, env), env)
  {
    hide IsSharedGood, IsLater;
    assert a.session in Held(a);
    var token := NewToken(a.session.userId, env.selector, Sha256(env.validator), env.nowMs + REMEMBER_LIFETIME_MS);
    if ResetAll(s.credentials, token).Ok? {
      ResettingIsGood(s, token, env);
      LaterKeepsRoots(s, WithToken(s, ResetAll(s.credentials, token).value, token.userId, env), a.session);
    }
    DrawingIsGood(s, Drawn(env));
    var o := ResetStep(s, a, env);
    EndsGood(o.shared.(issued := o.shared.issued + Drawn(env)), Some(a.session.id), None, None, 0);
  }

  lemma SaveResetStepIsGood(s: Shared, a: Actor, env: Env)
    requires IsSharedGood(s) && IsActorGood(s, a) && IsFresh(s, env) && a.SavingReset?
    ensures IsGoodStep(s, ResetStep(s, a, env), env)
  {
    hide IsSharedGood, IsLater;
    assert a.session in Held(a);
    SavingIsGood(s, a.session, env);
    var next := Save(s, a.session, env);
    LaterKeepsActor(s, next, a);
    EndsGood(next, Some(a.previous.id), None, Some(a.session), a.session.authEpoch);
    EndsGood(next, Some(a.previous.id), a.session.rememberSelector, None, a.session.authEpoch);
    StepOf(s, ResetStep(s, a, env), env);
  }

  lemma CheckStepIsGood(s: Shared, a: Actor, env: Env)
    requires IsSharedGood(s) && IsActorGood(s, a) && IsFresh(s, env)
    requires a.Reading? || a.Comparing? || a.FindingOwner?
    ensures IsGoodStep(s, CheckStep(s, a, env), env)
  {
    hide IsLater, HasCurrentTokens, HasWrittenTokens, HasDistinctValidators, HasDatedSelectors, HasRestoredOnce;
    StandingStill(s);
    if !a.Reading? {
      assert a.session in Held(a);
      EndsGood(s, Some(a.session.id), None, None, 0);
      if a.Comparing? && a.session.authEpoch == s.credentials.epoch {
        AcceptingIsGood(s, a.session, a.readMs);
        var accepted := s.accepted + [Acceptance(a.session, s.credentials.epoch, a.readMs)];
        LaterKeepsActor(s, s.(accepted := accepted), a);
      }
    }
    StepOf(s, CheckStep(s, a, env), env);
  }

  lemma RemoveStepIsGood(s: Shared, a: Actor, env: Env)
    requires IsSharedGood(s) && IsActorGood(s, a) && IsFresh(s, env) && a.Removing?
    ensures IsGoodStep(s, CheckStep(s, a, env), env)
  {
    hide IsSharedGood, IsLater;
    var left := if env.removesSession && a.oldSession.Some?
      then s.(sessions := s.sessions - {a.oldSession.value}) else s;
    StandingStill(s);
    if a.oldSession.Some? {
      RemovingSessionIsGood(s, a.oldSession.value);
    }
    if a.oldSelector.Some? {
      RemovingTokenIsGood(left, a.oldSelector.value);
      MovesCompose(s, left, left.(credentials := DeleteToken(left.credentials, a.oldSelector.value)));
    }
    var o := CheckStep(s, a, env);
    assert IsActorGood(s, a.result);
    LaterKeepsActor(s, o.shared, a.result);
    StepOf(s, o, env);
  }

  lemma StepIsGood(s: Shared, a: Actor, env: Env)
    requires IsSharedGood(s) && IsActorGood(s, a) && IsFresh(s, env)
    ensures IsGoodStep(s, Step(s, a, env), env)
  {
    hide IsSharedGood, IsActorGood, IsFresh, IsGoodStep, LoginStep, RestoreStep, ResetStep, CheckStep;
    match a {
      case Returned(_, _) =>
        StandingStill(s);
        StepOf(s, Outcome(s, a), env);
      case Restoring(_, _) => RestoreStepIsGood(s, a, env);
      case FindingUser(_) => RestoredStepIsGood(s, a, env);
      case SavingRestored(_) => RestoredStepIsGood(s, a, env);
      case Resetting(_) => ResetStepIsGood(s, a, env);
      case SavingReset(_, _) => SaveResetStepIsGood(s, a, env);
      case Reading(_) => CheckStepIsGood(s, a, env);
      case Comparing(_, _) => CheckStepIsGood(s, a, env);
      case FindingOwner(_) => CheckStepIsGood(s, a, env);
      case Removing(_, _, _) => RemoveStepIsGood(s, a, env);
      case CreatingToken(_) => CreateStepIsGood(s, a, env);
      case DroppingStale(_, _) => LoginAgainStepIsGood(s, a, env);
      case LoggingInAgain(_, _) => LoginAgainStepIsGood(s, a, env);
      case EstablishingAgain(_, _) => LoginAgainStepIsGood(s, a, env);
      case _ => LoginStepIsGood(s, a, env);
    }
  }
}
