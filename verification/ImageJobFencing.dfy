/** Leases over whole histories: they never overlap, and a displaced holder stays out. */
module ImageJobFencing {
  import opened Outcomes
  import opened ImageJobPolicy
  import opened ImageJobEffects
  import opened ImageJobRuns

  /** The live holder of `token` gives the lease back with `c`. */
  predicate HandsBack(row: ImageJob, c: Command, token: string) {
    && HolderToken(c.action) == Some(token)
    && Transition(row, c).Ok?
    && Transition(row, c).value.lease.None?
  }

  /** At some point of the history the live holder of `token` gave the lease back. */
  predicate WasHandedBack(job: ImageJob, cs: seq<Command>, token: string) {
    cs != [] &&
    var front := cs[..|cs| - 1];
    WasHandedBack(job, front, token) || HandsBack(Replay(job, front), cs[|cs| - 1], token)
  }

  lemma LeaseStep(job: ImageJob, c: Command, next: ImageJob)
    requires IsSoundStep(job, c, next)
    ensures IsClaim(c.action) ==> job.lease.None? && next.lease == Some(LeaseOf(c))
    ensures !IsClaim(c.action) ==> next.lease == job.lease || next.lease.None?
    ensures job.lease.Some? && next.lease.None? ==>
              HolderToken(c.action) == Some(job.lease.value.token) || job.lease.value.expiresAtMs <= c.atMs
  {
    hide IsRequest, IsErrorCode, IsLease, IsConsistent;
  }

  /** While a row was held, it is still held, or was handed back, or outlived the lease. */
  lemma {:induction false} HeldUntilReleased(job: ImageJob, cs: seq<Command>)
    requires IsSound(job) && job.lease.Some?
    ensures
      || Replay(job, cs).lease == job.lease
      || job.lease.value.expiresAtMs <= Replay(job, cs).updatedAtMs
      || WasHandedBack(job, cs, job.lease.value.token)
  {
    if cs != [] {
      var front, c := cs[..|cs| - 1], cs[|cs| - 1];
      HeldUntilReleased(job, front);
      ReplayStaysSound(job, front);
      var row := Replay(job, front);
      if Transition(row, c).Ok? {
        AcceptedIsSoundStep(row, c);
        LeaseStep(row, c, Transition(row, c).value);
        assert Transition(row, c).value.updatedAtMs == c.atMs;
      }
      hide IsSound, Transition, IsPermitted, Effect;
    }
  }

  /** A later claim starts only after the earlier lease ran out or its live holder gave it back. */
  lemma LeasePeriodsNeverOverlap(job: ImageJob, cs: seq<Command>, claim: Command)
    requires IsSound(job) && job.lease.Some?
    requires IsClaim(claim.action) && Transition(Replay(job, cs), claim).Ok?
    ensures job.lease.value.expiresAtMs <= claim.atMs || WasHandedBack(job, cs, job.lease.value.token)
  {
    HeldUntilReleased(job, cs);
    ReplayStaysSound(job, cs);
    var row := Replay(job, cs);
    AcceptedIsSoundStep(row, claim);
    LeaseStep(row, claim, Transition(row, claim).value);
    hide IsSound, Transition, IsPermitted, Effect;
  }

  /** No claim of the history mints `token` again. */
  predicate MintsNo(cs: seq<Command>, token: string) {
    forall i | 0 <= i < |cs| && IsClaim(cs[i].action) :: cs[i].action.leaseToken != token
  }

  predicate IsHeldBy(job: ImageJob, token: string) {
    job.lease.Some? && job.lease.value.token == token
  }

  lemma {:induction false} DisplacedStaysOut(job: ImageJob, cs: seq<Command>, token: string)
    requires IsSound(job)
    requires !IsHeldBy(job, token) && MintsNo(cs, token)
    ensures !IsHeldBy(Replay(job, cs), token)
  {
    if cs != [] {
      var front, c := cs[..|cs| - 1], cs[|cs| - 1];
      assert forall i | 0 <= i < |front| :: front[i] == cs[i];
      DisplacedStaysOut(job, front, token);
      ReplayStaysSound(job, front);
      var row := Replay(job, front);
      if Transition(row, c).Ok? {
        AcceptedIsSoundStep(row, c);
        LeaseStep(row, c, Transition(row, c).value);
      }
      hide IsSound, Transition, IsPermitted, Effect;
    }
  }

  /**
   Fencing: once the row is no longer held by `token`, and tokens are not minted twice, no holder-only
   command that presents `token` is accepted at any later time.
   */
  lemma DisplacedTokenIsFenced(job: ImageJob, cs: seq<Command>, token: string, c: Command)
    requires IsSound(job)
    requires !IsHeldBy(job, token) && MintsNo(cs, token)
    requires HolderToken(c.action) == Some(token)
    ensures Transition(Replay(job, cs), c).Err?
  {
    DisplacedStaysOut(job, cs, token);
    ReplayStaysSound(job, cs);
    if Transition(Replay(job, cs), c).Ok? {
      AcceptedIsSoundStep(Replay(job, cs), c);
      assert false;
    }
    hide IsSound, Transition, Replay, Effect;
  }
}
