/**
 From accepted clicks to observed ones. Each request runs claim, accounting and observation one after the
 other; any number of them interleave, any call may fail before or after its effect, and a process may
 stop between two calls. The domains considered have the delivered observer enabled throughout.
 */
module RedirectAccounting {
  import opened Outcomes
  import opened TrafficShield

  datatype Claim = Winner | Duplicate | Unavailable

  /** A ten-minute bucket of one domain. */
  datatype Bucket = Bucket(domainId: int, start: int)

  /** What the accounting counts: the clicks of one outcome in one bucket. */
  datatype Account = Account(bucket: Bucket, outcome: Outcome)

  /** One request that is neither a preview nor a generic bot, with the decision made for it. */
  datatype Visit = Visit(
    bucket: Bucket, filterReason: Option<string>, diverted: bool, acceptsUnprovenClaim: bool)

  datatype GapReason = ConfigGap | AccountingGap | ObserverGap | ClaimGap
  datatype Gap = Gap(bucket: Bucket, reason: GapReason)

  function OutcomeOf(v: Visit): Outcome {
    if v.filterReason == Some("meta") then FilteredMeta
    else if v.filterReason == Some("aws_dc") || v.filterReason == Some("fbclid_replay") then FilteredBot
    else if v.filterReason.Some? then FilteredOther
    else if v.diverted then Diverted
    else Delivered
  }

  /** Where a request of `handle` stands. */
  datatype Request =
    | Claiming(visit: Visit)
    | Recording(visit: Visit, claim: Claim)
    | Enabling(visit: Visit, claim: Claim, succeeded: bool)
    | Observing(visit: Visit)
    | Marking(visit: Visit, reason: GapReason)
    | Finished(visit: Visit)
    | Stopped(visit: Visit)

  /** How a call ends: it works, or it fails and may have had its effect all the same. */
  datatype Env = Env(works: bool, effect: bool, claim: Claim)

  /** `replies` is history that no step reads: how the calls of each request have ended, in order. */
  datatype World = World(
    accounted: map<Account, nat>,
    observed: map<Bucket, nat>,
    gaps: seq<Gap>,
    requests: seq<Request>,
    replies: seq<seq<Env>>)

  function CountOf<K>(counts: map<K, nat>, k: K): nat {
    if k in counts then counts[k] else 0
  }

  function Add<K>(counts: map<K, nat>, k: K): map<K, nat> {
    counts[k := CountOf(counts, k) + 1]
  }

  /** A call has its effect when it works, and may have it when it fails. */
  predicate HasEffect(env: Env) {
    env.works || env.effect
  }

  /** The next call of one request of handle. */
  function Step(w: World, r: Request, env: Env): (World, Request) {
    match r
    case Claiming(v) =>
      var claim := if env.works then env.claim else Unavailable;
      (w, if claim.Duplicate? then Finished(v) else Recording(v, claim))
    case Recording(v, claim) =>
      (if HasEffect(env) then w.(accounted := Add(w.accounted, Account(v.bucket, OutcomeOf(v)))) else w,
       if OutcomeOf(v).Delivered? then Enabling(v, claim, env.works) else Finished(v))
    case Enabling(v, claim, succeeded) =>
      if !env.works then (w, Marking(v, ConfigGap))
      else if !succeeded then (w, Marking(v, AccountingGap))
      else if claim.Winner? || (v.acceptsUnprovenClaim && claim.Unavailable?) then (w, Observing(v))
      else (w, Marking(v, ClaimGap))
    case Observing(v) =>
      (if HasEffect(env) then w.(observed := Add(w.observed, v.bucket)) else w,
       if env.works then Finished(v) else Marking(v, ObserverGap))
    case Marking(v, reason) => (w.(gaps := w.gaps + [Gap(v.bucket, reason)]), Finished(v))
    case Finished(_) => (w, r)
    case Stopped(_) => (w, r)
  }

  predicate IsOver(r: Request) {
    r.Finished? || r.Stopped?
  }

  datatype Event = Arrive(visit: Visit) | Proceed(i: nat, env: Env) | Stop(i: nat)

  function Next(w: World, e: Event): World {
    match e
    case Arrive(v) => w.(requests := w.requests + [Claiming(v)], replies := w.replies + [[]])
    case Proceed(i, env) =>
      if i < |w.requests| && i < |w.replies| && !IsOver(w.requests[i])
      then
        var (next, r) := Step(w, w.requests[i], env);
        next.(requests := w.requests[i := r], replies := w.replies[i := w.replies[i] + [env]])
      else w
    case Stop(i) =>
      if i < |w.requests| && !IsOver(w.requests[i])
      then w.(requests := w.requests[i := Stopped(w.requests[i].visit)])
      else w
  }

  const EmptyWorld := World(map[], map[], [], [], [])

  function RunAll(es: seq<Event>): World {
    if es == [] then EmptyWorld else Next(RunAll(es[..|es| - 1]), es[|es| - 1])
  }

  // ---------------------------------------------------------------------------------------------
  // What a request comes to, told by its visit and by how its calls ended
  // ---------------------------------------------------------------------------------------------

  predicate IsOf(v: Visit, outcome: Outcome) {
    match outcome
    case Delivered => v.filterReason == None && !v.diverted
    case Diverted => v.filterReason == None && v.diverted
    case FilteredMeta => v.filterReason == Some("meta")
    case FilteredBot => v.filterReason == Some("aws_dc") || v.filterReason == Some("fbclid_replay")
    case FilteredOther =>
      && v.filterReason != None
      && v.filterReason != Some("meta") && v.filterReason != Some("aws_dc") && v.filterReason != Some("fbclid_replay")
  }

  /** The same address has clicked within the claim's fifteen seconds. */
  predicate IsDuplicate(replies: seq<Env>) {
    |replies| > 0 && replies[0].works && replies[0].claim == Duplicate
  }

  /** The claim is proved by its answer, or the domain does without the proof. */
  predicate IsProved(v: Visit, replies: seq<Env>) {
    && |replies| > 0
    && if replies[0].works
       then replies[0].claim == Winner || (replies[0].claim == Unavailable && v.acceptsUnprovenClaim)
       else v.acceptsUnprovenClaim
  }

  /** The accounting's record call was made for a click that is no duplicate, and it had its effect. */
  predicate IsAccounted(v: Visit, replies: seq<Env>, outcome: Outcome) {
    && |replies| > 1 && !IsDuplicate(replies)
    && IsOf(v, outcome) && (replies[1].works || replies[1].effect)
  }

  /** The observer counted the click: it was delivered, recorded without failure, proved, and observed. */
  predicate IsObserved(v: Visit, replies: seq<Env>) {
    && |replies| > 3 && !IsDuplicate(replies) && IsOf(v, Delivered)
    && replies[1].works && replies[2].works && IsProved(v, replies) && (replies[3].works || replies[3].effect)
  }

  /** The request has marked a gap, for the first thing that went wrong. */
  predicate IsMarked(v: Visit, replies: seq<Env>, reason: GapReason) {
    && |replies| > 3 && !IsDuplicate(replies) && IsOf(v, Delivered)
    && match reason
       case ConfigGap => !replies[2].works
       case AccountingGap => replies[2].works && !replies[1].works
       case ClaimGap => replies[2].works && replies[1].works && !IsProved(v, replies)
       case ObserverGap =>
         |replies| > 4 && replies[2].works && replies[1].works && IsProved(v, replies) && !replies[3].works
  }

  predicate HasMarked(v: Visit, replies: seq<Env>) {
    || IsMarked(v, replies, ConfigGap) || IsMarked(v, replies, AccountingGap)
    || IsMarked(v, replies, ObserverGap) || IsMarked(v, replies, ClaimGap)
  }

  /**
   The request stands where its calls have brought it; one that has ended with an accounted click that was
   not observed has marked a gap.
   */
  predicate IsToldBy(r: Request, replies: seq<Env>) {
    match r
    case Claiming(_) => replies == []
    case Recording(v, claim) => |replies| == 1 && IsClaimOf(claim, replies)
    case Enabling(v, claim, succeeded) =>
      && |replies| == 2 && IsClaimOf(claim, replies) && IsOf(v, Delivered) && succeeded == replies[1].works
    case Observing(v) =>
      && |replies| == 3 && !IsDuplicate(replies) && IsOf(v, Delivered)
      && replies[1].works && replies[2].works && IsProved(v, replies)
    case Marking(v, reason) =>
      && (|replies| == if reason.ObserverGap? then 4 else 3)
      && IsMarked(v, replies + [Env(true, true, Winner)], reason)
    case Finished(v) =>
      IsAccounted(v, replies, Delivered) && !IsObserved(v, replies) ==> HasMarked(v, replies)
    case Stopped(_) => true
  }

  predicate IsClaimOf(claim: Claim, replies: seq<Env>) {
    && |replies| > 0 && !IsDuplicate(replies)
    && claim == if replies[0].works then replies[0].claim else Unavailable
  }

  function One(b: bool): nat {
    if b then 1 else 0
  }

  lemma OutcomeIsOf(v: Visit, outcome: Outcome)
    ensures OutcomeOf(v) == outcome <==> IsOf(v, outcome)
  {
  }

  /** One step adds to each count exactly what the request has newly come to. */
  lemma StepIsTold(w: World, r: Request, replies: seq<Env>, env: Env)
    requires IsToldBy(r, replies) && !IsOver(r)
    ensures var (after, next) := Step(w, r, env);
            next.visit == r.visit && IsToldBy(next, replies + [env])
  {
    OutcomeIsOf(r.visit, Delivered);
    var more := replies + [env];
    assert forall k | 0 <= k < |replies| :: more[k] == replies[k];
  }

  lemma StepCounts(w: World, r: Request, replies: seq<Env>, env: Env, account: Account, gap: Gap)
    requires IsToldBy(r, replies) && !IsOver(r)
    ensures var (after, next) := Step(w, r, env);
            var more := replies + [env];
            var v := r.visit;
            && CountOf(after.accounted, account)
               == CountOf(w.accounted, account)
                  + One(v.bucket == account.bucket && IsAccounted(v, more, account.outcome))
                  - One(v.bucket == account.bucket && IsAccounted(v, replies, account.outcome))
            && CountOf(after.observed, gap.bucket)
               == CountOf(w.observed, gap.bucket)
                  + One(v.bucket == gap.bucket && IsObserved(v, more))
                  - One(v.bucket == gap.bucket && IsObserved(v, replies))
            && multiset(after.gaps)[gap]
               == multiset(w.gaps)[gap]
                  + One(v.bucket == gap.bucket && IsMarked(v, more, gap.reason))
                  - One(v.bucket == gap.bucket && IsMarked(v, replies, gap.reason))
  {
    OutcomeIsOf(r.visit, Delivered);
    OutcomeIsOf(r.visit, account.outcome);
    var more := replies + [env];
    assert forall k | 0 <= k < |replies| :: more[k] == replies[k];
  }

  // ---------------------------------------------------------------------------------------------
  // The counts, over any interleaving
  // ---------------------------------------------------------------------------------------------

  function AccountedRequests(w: World, account: Account): set<nat> {
    set i: nat | i < |w.requests| && i < |w.replies| && w.requests[i].visit.bucket == account.bucket
                 && IsAccounted(w.requests[i].visit, w.replies[i], account.outcome)
  }

  function ObservedRequests(w: World, b: Bucket): set<nat> {
    set i: nat | i < |w.requests| && i < |w.replies| && w.requests[i].visit.bucket == b
                 && IsObserved(w.requests[i].visit, w.replies[i])
  }

  function MarkedRequests(w: World, gap: Gap): set<nat> {
    set i: nat | i < |w.requests| && i < |w.replies| && w.requests[i].visit.bucket == gap.bucket
                 && IsMarked(w.requests[i].visit, w.replies[i], gap.reason)
  }

  predicate IsCounted(w: World, account: Account, gap: Gap) {
    && CountOf(w.accounted, account) == |AccountedRequests(w, account)|
    && CountOf(w.observed, gap.bucket) == |ObservedRequests(w, gap.bucket)|
    && multiset(w.gaps)[gap] == |MarkedRequests(w, gap)|
  }

  predicate AllTold(w: World) {
    && |w.requests| == |w.replies|
    && forall i | 0 <= i < |w.requests| :: IsToldBy(w.requests[i], w.replies[i])
  }

  /** One element of a set has been decided anew. */
  lemma OneDecides(before: set<nat>, after: set<nat>, i: nat)
    requires forall k: nat | k != i :: k in before <==> k in after
    ensures |after| == |before| + One(i in after) - One(i in before)
  {
    assert before - {i} == after - {i};
    assert |before - {i}| == |before| - One(i in before);
    assert |after - {i}| == |after| - One(i in after);
  }

  lemma ProceedCounts(w: World, i: nat, env: Env, account: Account, gap: Gap)
    requires AllTold(w) && IsCounted(w, account, gap)
    ensures IsCounted(Next(w, Proceed(i, env)), account, gap)
  {
    hide Step, IsAccounted, IsObserved, IsMarked, IsToldBy;
    if i < |w.requests| && !IsOver(w.requests[i]) {
      var next := Next(w, Proceed(i, env));
      StepCounts(w, w.requests[i], w.replies[i], env, account, gap);
      StepIsTold(w, w.requests[i], w.replies[i], env);
      OneDecides(AccountedRequests(w, account), AccountedRequests(next, account), i);
      OneDecides(ObservedRequests(w, gap.bucket), ObservedRequests(next, gap.bucket), i);
      OneDecides(MarkedRequests(w, gap), MarkedRequests(next, gap), i);
    }
  }

  lemma ProceedTells(w: World, i: nat, env: Env)
    requires AllTold(w)
    ensures AllTold(Next(w, Proceed(i, env)))
  {
    hide Step, IsToldBy;
    if i < |w.requests| && !IsOver(w.requests[i]) {
      StepIsTold(w, w.requests[i], w.replies[i], env);
    }
  }

  lemma EventCounts(w: World, e: Event, account: Account, gap: Gap)
    requires AllTold(w) && IsCounted(w, account, gap)
    ensures AllTold(Next(w, e)) && IsCounted(Next(w, e), account, gap)
  {
    hide Step;
    match e {
      case Arrive(v) =>
        var next := Next(w, e);
        assert AccountedRequests(next, account) == AccountedRequests(w, account);
        assert ObservedRequests(next, gap.bucket) == ObservedRequests(w, gap.bucket);
        assert MarkedRequests(next, gap) == MarkedRequests(w, gap);
      case Proceed(i, env) =>
        ProceedCounts(w, i, env, account, gap);
        ProceedTells(w, i, env);
      case Stop(i) =>
        var next := Next(w, e);
        assert AccountedRequests(next, account) == AccountedRequests(w, account);
        assert ObservedRequests(next, gap.bucket) == ObservedRequests(w, gap.bucket);
        assert MarkedRequests(next, gap) == MarkedRequests(w, gap);
    }
  }

  lemma {:induction false} RunsAreCounted(es: seq<Event>, account: Account, gap: Gap)
    ensures AllTold(RunAll(es)) && IsCounted(RunAll(es), account, gap)
  {
    hide IsCounted, AllTold, Next;
    if es == [] {
      NothingIsCounted(account, gap);
    } else {
      RunsAreCounted(es[..|es| - 1], account, gap);
      EventCounts(RunAll(es[..|es| - 1]), es[|es| - 1], account, gap);
    }
  }

  lemma NothingIsCounted(account: Account, gap: Gap)
    ensures AllTold(EmptyWorld) && IsCounted(EmptyWorld, account, gap)
  {
    assert AccountedRequests(EmptyWorld, account) == {};
    assert ObservedRequests(EmptyWorld, gap.bucket) == {};
    assert MarkedRequests(EmptyWorld, gap) == {};
  }

  /**
   At every moment of any interleaving: an account holds exactly the requests of its outcome that were no
   duplicates and whose record call had its effect; a bucket has observed exactly the delivered ones among
   them that were recorded without failure, proved, and observed with effect; and a gap is marked exactly
   once by every request for which something went wrong in between.
   */
  lemma CountsAreExact(es: seq<Event>, account: Account, gap: Gap)
    ensures CountOf(RunAll(es).accounted, account) == |AccountedRequests(RunAll(es), account)|
    ensures CountOf(RunAll(es).observed, gap.bucket) == |ObservedRequests(RunAll(es), gap.bucket)|
    ensures multiset(RunAll(es).gaps)[gap] == |MarkedRequests(RunAll(es), gap)|
  {
    hide RunAll, AccountedRequests, ObservedRequests, MarkedRequests;
    RunsAreCounted(es, account, gap);
  }

  /** A duplicate leaves nothing behind: its claim ends the request, and its later steps are none. */
  lemma DuplicateLeavesNoTrace(w: World, i: nat, env: Env, later: Env)
    requires i < |w.requests| == |w.replies| && w.requests[i].Claiming? && env.works && env.claim == Duplicate
    ensures var next := Next(w, Proceed(i, env));
            && next.accounted == w.accounted && next.observed == w.observed && next.gaps == w.gaps
            && Next(next, Proceed(i, later)) == next
  {
  }

  /** A delivered click that wins its claim and whose calls all work: accounted and observed once, no gap. */
  lemma WinnerIsObserved(w: World, i: nat, env: Env)
    requires i < |w.requests| == |w.replies| && w.requests[i].Claiming? && env.works && env.claim == Winner
    requires w.requests[i].visit.filterReason == None && !w.requests[i].visit.diverted
    ensures var v := w.requests[i].visit;
            var step := Proceed(i, env);
            var next := Next(Next(Next(Next(w, step), step), step), step);
            && next.accounted == Add(w.accounted, Account(v.bucket, Delivered))
            && next.observed == Add(w.observed, v.bucket) && next.gaps == w.gaps
            && next.requests == w.requests[i := Finished(v)]
  {
    hide Add;
    var v, step := w.requests[i].visit, Proceed(i, env);
    var w1 := Next(w, step);
    var w2 := Next(w1, step);
    var w3 := Next(w2, step);
    assert w1.requests[i] == Recording(v, Winner);
    assert w2.requests[i] == Enabling(v, Winner, true);
    assert w3.requests[i] == Observing(v);
  }

  // ---------------------------------------------------------------------------------------------
  // Conservation
  // ---------------------------------------------------------------------------------------------

  lemma SubsetSize(a: set<nat>, b: set<nat>)
    requires a <= b
    ensures |a| <= |b|
  {
    assert b == a + (b - a);
  }

  /** In every bucket and at every moment, no more is observed than was accepted. */
  lemma ObservedNeverExceedsAccounted(es: seq<Event>, b: Bucket)
    ensures CountOf(RunAll(es).observed, b) <= CountOf(RunAll(es).accounted, Account(b, Delivered))
  {
    hide RunAll, IsOf;
    var w, account := RunAll(es), Account(b, Delivered);
    CountsAreExact(es, account, Gap(b, ClaimGap));
    assert ObservedRequests(w, b) <= AccountedRequests(w, account);
    SubsetSize(ObservedRequests(w, b), AccountedRequests(w, account));
  }

  /** Nobody called markGap for the bucket, and all its requests came to their end. */
  predicate IsSettled(w: World, b: Bucket) {
    && (forall k | 0 <= k < |w.gaps| :: w.gaps[k].bucket != b)
    && (forall i | 0 <= i < |w.requests| && w.requests[i].visit.bucket == b :: w.requests[i].Finished?)
  }

  lemma UnmarkedGap(es: seq<Event>, i: nat, reason: GapReason)
    requires i < |RunAll(es).requests| && i < |RunAll(es).replies|
    requires IsMarked(RunAll(es).requests[i].visit, RunAll(es).replies[i], reason)
    ensures exists k :: 0 <= k < |RunAll(es).gaps| && RunAll(es).gaps[k].bucket == RunAll(es).requests[i].visit.bucket
  {
    hide RunAll, IsMarked;
    var w := RunAll(es);
    var gap := Gap(w.requests[i].visit.bucket, reason);
    CountsAreExact(es, Account(gap.bucket, Delivered), gap);
    assert i in MarkedRequests(w, gap);
    assert gap in multiset(w.gaps);
    assert gap in w.gaps;
  }

  /** A settled bucket has observed exactly what was accepted. */
  lemma SettledBucketsAreEqual(es: seq<Event>, b: Bucket)
    requires IsSettled(RunAll(es), b)
    ensures CountOf(RunAll(es).observed, b) == CountOf(RunAll(es).accounted, Account(b, Delivered))
  {
    hide RunAll, IsAccounted, IsObserved, IsMarked;
    var w, account := RunAll(es), Account(b, Delivered);
    RunsAreCounted(es, account, Gap(b, ClaimGap));
    ObservedNeverExceedsAccounted(es, b);
    forall i | i in AccountedRequests(w, account)
      ensures i in ObservedRequests(w, b)
    {
      assert IsToldBy(w.requests[i], w.replies[i]);
      forall reason | IsMarked(w.requests[i].visit, w.replies[i], reason)
        ensures false
      {
        UnmarkedGap(es, i, reason);
      }
    }
    SubsetSize(AccountedRequests(w, account), ObservedRequests(w, b));
  }
}
