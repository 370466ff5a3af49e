/**
 The authentication epoch and the persistent-login tokens. Each operation is one atomic step, as the
 epoch lock makes it in MariaDB; the functions over `Credentials` say what it does and the classes do it
 on their maps.
 */
module AuthStores {
  import opened Outcomes

  /** A digest stands for the text it was made from: sha256 is taken to be injective. */
  datatype Digest = Sha256(text: string)

  /** `bornEpoch` is history that no operation reads: the epoch in which the selector was created. */
  datatype Token = Token(userId: int, validatorHash: Digest, expiresAtMs: int, bornEpoch: int)

  datatype Credentials = Credentials(epoch: int, tokens: map<string, Token>)

  datatype NewToken = NewToken(userId: int, selector: string, validatorHash: Digest, expiresAtMs: int)

  datatype Restoration = Invalid | Rotated(userId: int, selector: string, authEpoch: int)

  datatype AuthError = EpochExhausted

  datatype RestoreInput = RestoreInput(
    selector: string, validatorHash: Digest, rotatedValidatorHash: Digest, nowMs: int, expiresAtMs: int)

  function CreateToken(c: Credentials, input: NewToken): Credentials {
    c.(tokens := c.tokens[
      input.selector := Token(input.userId, input.validatorHash, input.expiresAtMs, c.epoch)])
  }

  predicate IsAcceptedBy(token: Token, input: RestoreInput) {
    token.validatorHash == input.validatorHash && input.nowMs < token.expiresAtMs
  }

  /** A wrong or late validator costs the token; a right one is replaced. */
  function RestoreToken(c: Credentials, input: RestoreInput): (Credentials, Restoration) {
    if input.selector !in c.tokens then (c, Invalid)
    else
      var token := c.tokens[input.selector];
      if !IsAcceptedBy(token, input) then (c.(tokens := c.tokens - {input.selector}), Invalid)
      else
        var rotated := token.(validatorHash := input.rotatedValidatorHash, expiresAtMs := input.expiresAtMs);
        (c.(tokens := c.tokens[input.selector := rotated]), Rotated(token.userId, input.selector, c.epoch))
  }

  /** The administrator's own new token is the only survivor, in the next epoch. */
  function ResetAll(c: Credentials, input: NewToken): Result<Credentials, AuthError> {
    if MAX_SAFE_INTEGER <= c.epoch then Err(EpochExhausted)
    else Ok(CreateToken(Credentials(c.epoch + 1, map[]), input))
  }

  function DeleteToken(c: Credentials, selector: string): Credentials {
    c.(tokens := c.tokens - {selector})
  }

  class AuthStore {
    var authEpoch: int
    var rememberTokens: map<string, Token>

    ghost function View(): Credentials
      reads this
    {
      Credentials(authEpoch, rememberTokens)
    }

    constructor ()
      ensures View() == Credentials(0, map[])
    {
      authEpoch, rememberTokens := 0, map[];
    }

    method CreateRememberToken(input: NewToken) returns (epoch: int)
      modifies this`rememberTokens
      ensures View() == CreateToken(old(View()), input) && epoch == authEpoch
    {
      rememberTokens := rememberTokens[
        input.selector := Token(input.userId, input.validatorHash, input.expiresAtMs, authEpoch)];
      return authEpoch;
    }

    method RestoreRememberToken(input: RestoreInput) returns (r: Restoration)
      modifies this`rememberTokens
      ensures (View(), r) == RestoreToken(old(View()), input)
      ensures r.Rotated? <==>
                && input.selector in old(rememberTokens)
                && old(rememberTokens)[input.selector].validatorHash == input.validatorHash
                && input.nowMs < old(rememberTokens)[input.selector].expiresAtMs
      ensures r.Invalid? ==> input.selector !in rememberTokens
      ensures r.Rotated? ==>
                && input.selector in rememberTokens
                && var token := rememberTokens[input.selector];
                   && token.validatorHash == input.rotatedValidatorHash && token.expiresAtMs == input.expiresAtMs
                   && token.userId == old(rememberTokens)[input.selector].userId == r.userId
      ensures rememberTokens - {input.selector} == old(rememberTokens) - {input.selector}
    {
      if input.selector !in rememberTokens {
        return Invalid;
      }
      var token := rememberTokens[input.selector];
      if token.validatorHash != input.validatorHash || token.expiresAtMs <= input.nowMs {
        rememberTokens := rememberTokens - {input.selector};
        return Invalid;
      }
      rememberTokens := rememberTokens[
        input.selector :=
          token.(validatorHash := input.rotatedValidatorHash, expiresAtMs := input.expiresAtMs)];
      return Rotated(token.userId, input.selector, authEpoch);
    }

    method ResetAllAuthCredentials(input: NewToken) returns (r: Result<int, AuthError>)
      modifies this
      ensures r.Ok? ==> ResetAll(old(View()), input) == Ok(View()) && r.value == authEpoch
      ensures r.Err? ==> ResetAll(old(View()), input) == Err(r.error) && View() == old(View())
    {
      if MAX_SAFE_INTEGER <= authEpoch {
        return Err(EpochExhausted);
      }
      authEpoch := authEpoch + 1;
      rememberTokens := map[];
      rememberTokens := rememberTokens[
        input.selector := Token(input.userId, input.validatorHash, input.expiresAtMs, authEpoch)];
      return Ok(authEpoch);
    }

    method DeleteRememberToken(selector: string)
      modifies this`rememberTokens
      ensures View() == DeleteToken(old(View()), selector)
    {
      rememberTokens := rememberTokens - {selector};
    }
  }

  // ---------------------------------------------------------------------------------------------
  // One store's life, told by its calls and its answers alone
  // ---------------------------------------------------------------------------------------------

  datatype Call =
    | CallCreate(token: NewToken)
    | CallReset(token: NewToken)
    | CallRestore(input: RestoreInput)
    | CallDelete(selector: string)

  datatype Reply = Epoch(epoch: int) | Refused | Restored(restoration: Restoration) | Done

  datatype Entry = Entry(call: Call, reply: Reply)

  /** The entry has made a new token. */
  predicate Makes(e: Entry, selector: string) {
    (e.call.CallCreate? || (e.call.CallReset? && !e.reply.Refused?)) && e.call.token.selector == selector
  }

  predicate Rotates(e: Entry, selector: string) {
    && e.call.CallRestore? && e.call.input.selector == selector
    && e.reply.Restored? && e.reply.restoration.Rotated?
  }

  /** The entry leaves no token under the selector: a logout, a refusal, or a reset with another one. */
  predicate Drops(e: Entry, selector: string) {
    match e.call
    case CallCreate(_) => false
    case CallReset(token) => !e.reply.Refused? && token.selector != selector
    case CallRestore(input) => input.selector == selector && !Rotates(e, selector)
    case CallDelete(deleted) => deleted == selector
  }

  /** The i-th entry was the last to make the selector's token, for this user. */
  predicate IsMaker(log: seq<Entry>, selector: string, userId: int, i: nat) {
    && i < |log| && Makes(log[i], selector) && log[i].call.token.userId == userId
    && forall k | i < k < |log| :: !Makes(log[k], selector)
  }

  /** The i-th entry was the last to write this validator and this expiry, and the token is still there. */
  predicate IsWriter(log: seq<Entry>, selector: string, validatorHash: Digest, expiresAtMs: int, i: nat) {
    && i < |log|
    && (|| (Makes(log[i], selector)
            && log[i].call.token.validatorHash == validatorHash
            && log[i].call.token.expiresAtMs == expiresAtMs)
        || (Rotates(log[i], selector)
            && log[i].call.input.rotatedValidatorHash == validatorHash
            && log[i].call.input.expiresAtMs == expiresAtMs))
    && forall k | i < k < |log| :: !Makes(log[k], selector) && !Rotates(log[k], selector) && !Drops(log[k], selector)
  }

  function ResetsIn(log: seq<Entry>): nat {
    if log == [] then 0
    else
      var last := log[|log| - 1];
      ResetsIn(log[..|log| - 1]) + if last.call.CallReset? && !last.reply.Refused? then 1 else 0
  }

  /** The reply to a call after the calls in the log. */
  ghost predicate IsRightReply(log: seq<Entry>, e: Entry) {
    match e.call
    case CallCreate(_) => e.reply == Epoch(ResetsIn(log))
    case CallReset(_) =>
      e.reply == if ResetsIn(log) < MAX_SAFE_INTEGER then Epoch(ResetsIn(log) + 1) else Refused
    case CallDelete(_) => e.reply == Done
    case CallRestore(input) =>
      && e.reply.Restored?
      && (e.reply.restoration.Rotated? <==>
            exists i: nat, expiresAtMs: int ::
              IsWriter(log, input.selector, input.validatorHash, expiresAtMs, i) && input.nowMs < expiresAtMs)
      && (e.reply.restoration.Rotated? ==>
            && e.reply.restoration.selector == input.selector
            && e.reply.restoration.authEpoch == ResetsIn(log)
            && exists i: nat :: IsMaker(log, input.selector, e.reply.restoration.userId, i))
  }

  /** What is stored under the selector after the calls in the log. */
  ghost predicate IsTold(log: seq<Entry>, selector: string, tokens: map<string, Token>) {
    if selector in tokens then
      && var token := tokens[selector];
         && (exists i: nat :: IsWriter(log, selector, token.validatorHash, token.expiresAtMs, i))
         && (exists i: nat :: IsMaker(log, selector, token.userId, i))
    else
      forall i: nat, hash: Digest, expiresAtMs: int :: !IsWriter(log, selector, hash, expiresAtMs, i)
  }

  ghost predicate IsStoreTold(log: seq<Entry>, c: Credentials) {
    && c.epoch == ResetsIn(log) <= MAX_SAFE_INTEGER
    && forall selector: string :: IsTold(log, selector, c.tokens)
  }

  /** A validator restores once: presented again it is refused, and costs the token it once belonged to. */
  method RestoreTwice(store: AuthStore, input: RestoreInput, again: RestoreInput)
    returns (first: Restoration, second: Restoration)
    requires input.selector == again.selector && input.validatorHash == again.validatorHash
    requires input.rotatedValidatorHash != input.validatorHash
    modifies store`rememberTokens
    ensures second == Invalid && input.selector !in store.rememberTokens
    ensures first.Rotated? <==>
              && input.selector in old(store.rememberTokens)
              && old(store.rememberTokens)[input.selector].validatorHash == input.validatorHash
              && input.nowMs < old(store.rememberTokens)[input.selector].expiresAtMs
    ensures first.Rotated? ==> first.authEpoch == store.authEpoch
    ensures forall s | s != input.selector ::
              (s in store.rememberTokens <==> s in old(store.rememberTokens))
              && (s in store.rememberTokens ==> store.rememberTokens[s] == old(store.rememberTokens)[s])
  {
    first := store.RestoreRememberToken(input);
    second := store.RestoreRememberToken(again);
  }

  /** The right validator is worth nothing from its expiry on, and costs the token. */
  method RestoreTooLate(store: AuthStore, made: NewToken, input: RestoreInput) returns (r: Restoration)
    requires input.selector == made.selector && made.expiresAtMs <= input.nowMs
    modifies store`rememberTokens
    ensures r == Invalid && store.rememberTokens == old(store.rememberTokens) - {made.selector}
  {
    var epoch := store.CreateRememberToken(made);
    r := store.RestoreRememberToken(input);
  }

  /** After a logout nothing restores the selector, and nobody else's token is touched. */
  method RestoreAfterLogout(store: AuthStore, input: RestoreInput) returns (r: Restoration)
    modifies store`rememberTokens
    ensures r == Invalid && store.View() == DeleteToken(old(store.View()), input.selector)
  {
    store.DeleteRememberToken(input.selector);
    r := store.RestoreRememberToken(input);
  }

  /** After a reset every other selector is refused, and new tokens are of a later epoch than all before. */
  method RestoreAfterReset(store: AuthStore, reset: NewToken, input: RestoreInput, login: NewToken)
    returns (r: Restoration, epoch: int)
    requires store.authEpoch < MAX_SAFE_INTEGER && input.selector != reset.selector
    modifies store
    ensures r == Invalid && epoch == old(store.authEpoch) + 1
    ensures store.rememberTokens.Keys == {reset.selector, login.selector}
    ensures forall s | s in store.rememberTokens :: store.rememberTokens[s].bornEpoch == epoch
  {
    var done := store.ResetAllAuthCredentials(reset);
    r := store.RestoreRememberToken(input);
    epoch := store.CreateRememberToken(login);
  }

  // ---------------------------------------------------------------------------------------------
  // Any life
  // ---------------------------------------------------------------------------------------------

  ghost function AfterCall(c: Credentials, call: Call): Credentials {
    match call
    case CallCreate(token) => CreateToken(c, token)
    case CallReset(token) => if c.epoch < MAX_SAFE_INTEGER then ResetAll(c, token).value else c
    case CallRestore(input) => RestoreToken(c, input).0
    case CallDelete(selector) => DeleteToken(c, selector)
  }

  ghost function ReplyTo(c: Credentials, call: Call): Reply {
    match call
    case CallCreate(_) => Epoch(c.epoch)
    case CallReset(_) => if c.epoch < MAX_SAFE_INTEGER then Epoch(c.epoch + 1) else Refused
    case CallRestore(input) => Restored(RestoreToken(c, input).1)
    case CallDelete(_) => Done
  }

  /** An entry that has nothing to do with the selector leaves what is told about it. */
  lemma StillTold(log: seq<Entry>, e: Entry, selector: string, tokens: map<string, Token>, next: map<string, Token>)
    requires IsTold(log, selector, tokens)
    requires !Makes(e, selector) && !Rotates(e, selector) && !Drops(e, selector)
    requires selector in tokens <==> selector in next
    requires selector in tokens ==> tokens[selector] == next[selector]
    ensures IsTold(log + [e], selector, next)
  {
    var longer := log + [e];
    assert longer[..|log|] == log;
    if selector in tokens {
      var token := tokens[selector];
      var i: nat :| IsWriter(log, selector, token.validatorHash, token.expiresAtMs, i);
      assert IsWriter(longer, selector, token.validatorHash, token.expiresAtMs, i);
      var m: nat :| IsMaker(log, selector, token.userId, m);
      assert IsMaker(longer, selector, token.userId, m);
    } else {
      forall i: nat, hash: Digest, expiresAtMs: int
        ensures !IsWriter(longer, selector, hash, expiresAtMs, i)
      {
        if IsWriter(longer, selector, hash, expiresAtMs, i) {
          assert IsWriter(log, selector, hash, expiresAtMs, i);
        }
      }
    }
  }

  lemma NothingStored(log: seq<Entry>, e: Entry, selector: string, next: map<string, Token>)
    requires Drops(e, selector) && selector !in next
    ensures IsTold(log + [e], selector, next)
  {
    assert (log + [e])[|log|] == e;
    assert !Makes(e, selector) && !Rotates(e, selector);
  }

  lemma NewlyStored(log: seq<Entry>, e: Entry, selector: string, next: map<string, Token>)
    requires Makes(e, selector) && selector in next
    requires var token := e.call.token;
             && next[selector].validatorHash == token.validatorHash
             && next[selector].expiresAtMs == token.expiresAtMs && next[selector].userId == token.userId
    ensures IsTold(log + [e], selector, next)
  {
    assert (log + [e])[|log|] == e;
    assert IsWriter(log + [e], selector, next[selector].validatorHash, next[selector].expiresAtMs, |log|);
    assert IsMaker(log + [e], selector, next[selector].userId, |log|);
  }

  lemma NewlyRotated(log: seq<Entry>, e: Entry, selector: string, tokens: map<string, Token>, next: map<string, Token>)
    requires IsTold(log, selector, tokens) && selector in tokens && selector in next
    requires Rotates(e, selector) && next[selector].userId == tokens[selector].userId
    requires next[selector].validatorHash == e.call.input.rotatedValidatorHash
    requires next[selector].expiresAtMs == e.call.input.expiresAtMs
    ensures IsTold(log + [e], selector, next)
  {
    var longer := log + [e];
    assert longer[|log|] == e;
    assert IsWriter(longer, selector, next[selector].validatorHash, next[selector].expiresAtMs, |log|);
    var m: nat :| IsMaker(log, selector, tokens[selector].userId, m);
    assert IsMaker(longer, selector, next[selector].userId, m);
  }

  lemma CallIsTold(log: seq<Entry>, c: Credentials, call: Call)
    requires IsStoreTold(log, c)
    ensures IsStoreTold(log + [Entry(call, ReplyTo(c, call))], AfterCall(c, call))
  {
    var e := Entry(call, ReplyTo(c, call));
    var next := AfterCall(c, call);
    assert (log + [e])[..|log|] == log;
    forall selector: string
      ensures IsTold(log + [e], selector, next.tokens)
    {
      if Makes(e, selector) {
        NewlyStored(log, e, selector, next.tokens);
      } else if Rotates(e, selector) {
        NewlyRotated(log, e, selector, c.tokens, next.tokens);
      } else if Drops(e, selector) {
        NothingStored(log, e, selector, next.tokens);
      } else {
        StillTold(log, e, selector, c.tokens, next.tokens);
      }
    }
  }

  lemma ReplyIsRight(log: seq<Entry>, c: Credentials, call: Call)
    requires IsStoreTold(log, c)
    ensures IsRightReply(log, Entry(call, ReplyTo(c, call)))
  {
    if call.CallRestore? {
      var input := call.input;
      assert IsTold(log, input.selector, c.tokens);
      if input.selector in c.tokens {
        var token := c.tokens[input.selector];
        var i: nat :| IsWriter(log, input.selector, token.validatorHash, token.expiresAtMs, i);
        WriterIsUnique(log, input.selector, token.validatorHash, token.expiresAtMs, i);
      }
    }
  }

  lemma WriterIsUnique(log: seq<Entry>, selector: string, validatorHash: Digest, expiresAtMs: int, i: nat)
    requires IsWriter(log, selector, validatorHash, expiresAtMs, i)
    ensures forall j: nat, other: Digest, otherMs: int ::
              IsWriter(log, selector, other, otherMs, j) ==> other == validatorHash && otherMs == expiresAtMs
  {
    forall j: nat, other: Digest, otherMs: int | IsWriter(log, selector, other, otherMs, j)
      ensures other == validatorHash && otherMs == expiresAtMs
    {
      assert i == j;
    }
  }

  /**
   Any life of a store: every call is answered as the calls before it demand, so a restoration succeeds
   exactly with the validator written last, before the expiry written with it, for the user the token
   was made for; and what is stored at the end is told by the log.
   */
  method LiveThrough(calls: seq<Call>) returns (log: seq<Entry>, tokens: map<string, Token>)
    ensures |log| == |calls| && forall n | 0 <= n < |calls| :: log[n].call == calls[n]
    ensures forall n | 0 <= n < |calls| :: IsRightReply(log[..n], log[n])
    ensures forall selector: string :: IsTold(log, selector, tokens)
  {
    var store := new AuthStore();
    log := [];
    for n := 0 to |calls|
      invariant fresh(store) && |log| == n
      invariant forall k | 0 <= k < n :: log[k].call == calls[k] && IsRightReply(log[..k], log[k])
      invariant IsStoreTold(log, store.View())
    {
      ghost var before := store.View();
      var reply := Done;
      match calls[n] {
        case CallCreate(token) =>
          var epoch := store.CreateRememberToken(token);
          reply := Epoch(epoch);
        case CallReset(token) =>
          var done := store.ResetAllAuthCredentials(token);
          reply := if done.Ok? then Epoch(done.value) else Refused;
        case CallRestore(input) =>
          var restoration := store.RestoreRememberToken(input);
          reply := Restored(restoration);
        case CallDelete(selector) => store.DeleteRememberToken(selector);
      }
      ReplyIsRight(log, before, calls[n]);
      CallIsTold(log, before, calls[n]);
      var longer := log + [Entry(calls[n], reply)];
      assert forall k | 0 <= k <= n :: longer[..k] == log[..k];
      log := longer;
    }
    tokens := store.rememberTokens;
  }
}
