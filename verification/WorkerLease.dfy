/**
 The image worker's heartbeat object: one process's view of an expiring singleton lease. `#publish` is
 split at its `await`: a call begins a command, and the reply or the error settles it.
 */
module WorkerLease {
  import opened Outcomes

  datatype Timing = Timing(ttlMs: int, intervalMs: int, commandTimeoutMs: int)

  /** What the constructor accepts. */
  predicate IsAccepted(t: Timing) {
    && 1_000 <= t.ttlMs <= 60_000
    && 250 <= t.intervalMs <= t.ttlMs - 1
    && 50 <= t.commandTimeoutMs <= t.intervalMs
  }

  const DEFAULT_TIMING := Timing(15_000, 5_000, 1_000)

  /** How a command ends for its caller; a timeout and a lost connection look alike. */
  datatype Settlement = Granted | Refused | Broken

  /** `nextTickMs` is when the interval timer fires next; `active` is a command not yet settled. */
  datatype Heartbeat = Heartbeat(
    nextTickMs: Option<int>,
    active: bool,
    readySent: bool,
    stopped: bool,
    lastSuccessMs: Option<int>,
    lost: bool)

  const IdleHeartbeat := Heartbeat(None, false, false, false, None, false)

  /** #refreshWindowExhausted. */
  predicate IsExhausted(t: Timing, h: Heartbeat, nowMs: int) {
    h.lastSuccessMs.Some? ==>
      h.lastSuccessMs.value + t.ttlMs <= nowMs + t.intervalMs + t.commandTimeoutMs
  }

  /** acquire(), up to its command: an earlier success makes it a no-op. */
  function BeginAcquire(h: Heartbeat): Heartbeat {
    if h.stopped || h.readySent || h.active then h else h.(active := true)
  }

  /** #tick(): nothing while a command is active or once the lease is lost. */
  function BeginTick(h: Heartbeat): Heartbeat {
    if h.stopped || h.lost || h.active then h else h.(active := true)
  }

  /** start(): a first tick at once, then the interval. */
  function Start(t: Timing, h: Heartbeat, nowMs: int): Heartbeat {
    if h.nextTickMs.Some? || h.stopped then h
    else BeginTick(h).(nextTickMs := Some(nowMs + t.intervalMs))
  }

  /** The interval fires. */
  function FireTimer(t: Timing, h: Heartbeat, nowMs: int): Heartbeat {
    if h.nextTickMs.None? then h else BeginTick(h).(nextTickMs := Some(nowMs + t.intervalMs))
  }

  /** The second half of #publish(). */
  function Settle(t: Timing, h: Heartbeat, outcome: Settlement, nowMs: int): Heartbeat {
    if outcome.Granted? then
      h.(active := false, lastSuccessMs := Some(nowMs), readySent := h.readySent || !h.stopped)
    else if !h.stopped && h.readySent && (outcome.Refused? || IsExhausted(t, h, nowMs)) then
      h.(active := false, lost := true)
    else
      h.(active := false)
  }

  /** stop(), up to its compare-and-delete. */
  function Stop(h: Heartbeat): Heartbeat {
    h.(stopped := true, nextTickMs := None)
  }

  class ImageWorkerHeartbeat {
    const timing: Timing
    var nextTickMs: Option<int>
    var active: bool
    var readySent: bool
    var stopped: bool
    var lastSuccessfulPublishAtMs: Option<int>
    var leaseLossSignalled: bool

    ghost function View(): Heartbeat
      reads this
    {
      Heartbeat(nextTickMs, active, readySent, stopped, lastSuccessfulPublishAtMs, leaseLossSignalled)
    }

    constructor (timing: Timing)
      requires IsAccepted(timing)
      ensures this.timing == timing && View() == IdleHeartbeat
    {
      this.timing := timing;
      nextTickMs, active, readySent, stopped := None, false, false, false;
      lastSuccessfulPublishAtMs, leaseLossSignalled := None, false;
    }

    method Acquire() returns (sends: bool)
      modifies this
      ensures View() == BeginAcquire(old(View()))
      ensures sends <==> active && !old(active)
    {
      if stopped || readySent || active {
        return false;
      }
      active := true;
      return true;
    }

    method Tick() returns (sends: bool)
      modifies this
      ensures View() == BeginTick(old(View()))
      ensures sends <==> active && !old(active)
    {
      if stopped || leaseLossSignalled || active {
        return false;
      }
      active := true;
      return true;
    }

    method StartTimer(nowMs: int) returns (sends: bool)
      modifies this
      ensures View() == Start(timing, old(View()), nowMs)
      ensures sends <==> active && !old(active)
    {
      if nextTickMs.Some? || stopped {
        return false;
      }
      sends := Tick();
      nextTickMs := Some(nowMs + timing.intervalMs);
    }

    method OnTimer(nowMs: int) returns (sends: bool)
      modifies this
      ensures View() == FireTimer(timing, old(View()), nowMs)
      ensures sends <==> active && !old(active)
    {
      if nextTickMs.None? {
        return false;
      }
      sends := Tick();
      nextTickMs := Some(nowMs + timing.intervalMs);
    }

    method IsRefreshWindowExhausted(nowMs: int) returns (exhausted: bool)
      ensures exhausted == IsExhausted(timing, View(), nowMs)
    {
      if lastSuccessfulPublishAtMs.None? {
        return true;
      }
      var nextDecisionAt := nowMs + timing.intervalMs + timing.commandTimeoutMs;
      return lastSuccessfulPublishAtMs.value + timing.ttlMs <= nextDecisionAt;
    }

    /** `signals` tells whether onLeaseLost is called now: at most once in the object's life. */
    method SettlePublish(outcome: Settlement, nowMs: int) returns (signals: bool)
      modifies this
      ensures View() == Settle(timing, old(View()), outcome, nowMs)
      ensures signals <==> leaseLossSignalled && !old(leaseLossSignalled)
      ensures outcome.Refused? && old(readySent) && !old(stopped) ==> leaseLossSignalled
      ensures signals && !outcome.Refused? && old(lastSuccessfulPublishAtMs).Some? ==>
                && outcome.Broken?
                && nowMs + timing.intervalMs + timing.commandTimeoutMs >=
                   old(lastSuccessfulPublishAtMs).value + timing.ttlMs
    {
      active := false;
      signals := false;
      if outcome.Granted? {
        lastSuccessfulPublishAtMs := Some(nowMs);
        if !readySent && !stopped {
          readySent := true;
        }
      } else if !stopped && readySent {
        var exhausted := IsRefreshWindowExhausted(nowMs);
        if outcome.Refused? || exhausted {
          signals := !leaseLossSignalled;
          leaseLossSignalled := true;
        }
      }
    }

    method StopTimer()
      modifies this
      ensures View() == Stop(old(View()))
    {
      stopped := true;
      nextTickMs := None;
    }
  }

  /** What happens to one heartbeat object in its life. */
  datatype Call =
    | CallAcquire
    | CallStart(nowMs: int)
    | CallTimer(nowMs: int)
    | CallSettle(outcome: Settlement, nowMs: int)
    | CallStop

  // ---------------------------------------------------------------------------------------------
  // One object's life, told by its first n calls alone
  // ---------------------------------------------------------------------------------------------

  predicate WasStopped(calls: seq<Call>, n: nat)
    requires n <= |calls|
  {
    exists i :: 0 <= i < n && calls[i].CallStop?
  }

  predicate WasStarted(calls: seq<Call>, n: nat)
    requires n <= |calls|
  {
    exists i :: 0 <= i < n && calls[i].CallStart? && !WasStopped(calls, i)
  }

  predicate IsGrant(call: Call) {
    call.CallSettle? && call.outcome.Granted?
  }

  /** Once confirmed before a stop, the object has announced itself and a failure may cost the lease. */
  predicate WasReady(calls: seq<Call>, n: nat)
    requires n <= |calls|
  {
    exists i :: 0 <= i < n && IsGrant(calls[i]) && !WasStopped(calls, i)
  }

  function LastGrantMs(calls: seq<Call>, n: nat): Option<int>
    requires n <= |calls|
  {
    if n == 0 then None
    else if IsGrant(calls[n - 1]) then Some(calls[n - 1].nowMs)
    else LastGrantMs(calls, n - 1)
  }

  /**
   The n-th call costs the lease: another worker owns the key, or the command failed and the decision
   after the next interval could come too late.
   */
  predicate CostsLease(t: Timing, calls: seq<Call>, n: nat)
    requires n < |calls|
  {
    && calls[n].CallSettle? && WasReady(calls, n) && !WasStopped(calls, n)
    && match calls[n].outcome
       case Granted => false
       case Refused => true
       case Broken =>
         var last := LastGrantMs(calls, n);
         last.Some? ==> last.value + t.ttlMs <= calls[n].nowMs + t.intervalMs + t.commandTimeoutMs
  }

  predicate WasLost(t: Timing, calls: seq<Call>, n: nat)
    requires n <= |calls|
  {
    exists i :: 0 <= i < n && CostsLease(t, calls, i)
  }

  /** The n-th call runs a tick: the first start, or the timer while it is set. */
  predicate IsBeat(calls: seq<Call>, n: nat)
    requires n < |calls|
  {
    && !WasStopped(calls, n)
    && match calls[n]
       case CallStart(_) => !WasStarted(calls, n)
       case CallTimer(_) => WasStarted(calls, n)
       case _ => false
  }

  /** One of the first n calls sent a command that none of them has settled. */
  predicate IsBusy(calls: seq<Call>, sent: seq<bool>, n: nat)
    requires n <= |calls| && n <= |sent|
  {
    exists i :: 0 <= i < n && sent[i] && IsUnsettled(calls, i, n)
  }

  predicate IsUnsettled(calls: seq<Call>, i: nat, n: nat)
    requires n <= |calls|
  {
    forall k | i < k < n :: !calls[k].CallSettle?
  }

  /** The n-th call sends a command, given which of the earlier ones did. */
  predicate ShouldSend(t: Timing, calls: seq<Call>, sent: seq<bool>, n: nat)
    requires n < |calls| && n <= |sent|
  {
    && !WasStopped(calls, n) && !IsBusy(calls, sent, n)
    && if calls[n].CallAcquire? then !WasReady(calls, n) else IsBeat(calls, n) && !WasLost(t, calls, n)
  }

  /** The timer is set while the object is started and not stopped: one interval after the latest tick. */
  predicate IsDue(t: Timing, calls: seq<Call>, n: nat, due: Option<int>)
    requires n <= |calls|
  {
    if WasStopped(calls, n) || !WasStarted(calls, n) then due.None?
    else
      exists i :: && 0 <= i < n && IsBeat(calls, i) && due == Some(calls[i].nowMs + t.intervalMs)
                  && forall k | i < k < n :: !IsBeat(calls, k)
  }

  /** The heartbeat object after the first n calls: every field is told by the history. */
  ghost predicate Tells(t: Timing, calls: seq<Call>, sent: seq<bool>, n: nat, h: Heartbeat)
    requires n <= |calls| && n <= |sent|
  {
    && (h.stopped <==> WasStopped(calls, n))
    && (h.readySent <==> WasReady(calls, n))
    && (h.lost <==> WasLost(t, calls, n))
    && (h.active <==> IsBusy(calls, sent, n))
    && h.lastSuccessMs == LastGrantMs(calls, n)
    && IsDue(t, calls, n, h.nextTickMs)
  }

  ghost function AfterCall(t: Timing, h: Heartbeat, call: Call): Heartbeat {
    match call
    case CallAcquire => BeginAcquire(h)
    case CallStart(nowMs) => Start(t, h, nowMs)
    case CallTimer(nowMs) => FireTimer(t, h, nowMs)
    case CallSettle(outcome, nowMs) => Settle(t, h, outcome, nowMs)
    case CallStop => Stop(h)
  }

  /** One more call, which sends a command or not. */
  lemma BusyAfter(calls: seq<Call>, sent: seq<bool>, n: nat, sends: bool)
    requires n < |calls| && |sent| == n
    requires calls[n].CallSettle? ==> !sends
    ensures IsBusy(calls, sent + [sends], n + 1) <==> sends || (IsBusy(calls, sent, n) && !calls[n].CallSettle?)
    ensures forall k: nat | k <= n :: IsBusy(calls, sent + [sends], k) <==> IsBusy(calls, sent, k)
  {
    var more := sent + [sends];
    if sends {
      assert more[n] && IsUnsettled(calls, n, n + 1);
    }
    if i :| 0 <= i < n && sent[i] && IsUnsettled(calls, i, n) && !calls[n].CallSettle? {
      assert more[i] && IsUnsettled(calls, i, n + 1);
    }
    if i :| 0 <= i <= n && more[i] && IsUnsettled(calls, i, n + 1) && !sends {
      assert sent[i] && IsUnsettled(calls, i, n);
    }
    forall k: nat | k <= n
      ensures IsBusy(calls, more, k) <==> IsBusy(calls, sent, k)
    {
      if i :| 0 <= i < k && sent[i] && IsUnsettled(calls, i, k) {
        assert more[i];
      }
      if i :| 0 <= i < k && more[i] && IsUnsettled(calls, i, k) {
        assert sent[i];
      }
    }
  }

  lemma FlagsAfter(t: Timing, calls: seq<Call>, n: nat)
    requires n < |calls|
    ensures WasStopped(calls, n + 1) <==> WasStopped(calls, n) || calls[n].CallStop?
    ensures WasReady(calls, n + 1) <==> WasReady(calls, n) || (IsGrant(calls[n]) && !WasStopped(calls, n))
    ensures WasStarted(calls, n + 1) <==> WasStarted(calls, n) || (calls[n].CallStart? && !WasStopped(calls, n))
    ensures WasLost(t, calls, n + 1) <==> WasLost(t, calls, n) || CostsLease(t, calls, n)
  {
    hide CostsLease;
  }

  lemma BeatMeansStarted(calls: seq<Call>, n: nat)
    requires n < |calls|
    ensures IsBeat(calls, n) ==> !WasStopped(calls, n) && (WasStarted(calls, n) || calls[n].CallStart?)
    ensures calls[n].CallStart? && !WasStopped(calls, n) && !WasStarted(calls, n) ==> IsBeat(calls, n)
  {
    hide WasStopped, WasStarted;
  }

  lemma DueAfter(t: Timing, calls: seq<Call>, n: nat, due: Option<int>)
    requires n < |calls| && IsDue(t, calls, n, due) && !calls[n].CallStop?
    ensures IsDue(t, calls, n + 1, if IsBeat(calls, n) then Some(calls[n].nowMs + t.intervalMs) else due)
  {
    FlagsAfter(t, calls, n);
    BeatMeansStarted(calls, n);
    hide WasStopped, WasStarted, IsBeat;
    if !IsBeat(calls, n) && !WasStopped(calls, n) && WasStarted(calls, n) {
      var i :| && 0 <= i < n && IsBeat(calls, i) && due == Some(calls[i].nowMs + t.intervalMs)
               && forall k | i < k < n :: !IsBeat(calls, k);
      assert forall k | i < k < n + 1 :: !IsBeat(calls, k);
    }
  }

  lemma StartedMeansDue(t: Timing, calls: seq<Call>, n: nat, due: Option<int>)
    requires n <= |calls| && IsDue(t, calls, n, due)
    ensures due.Some? <==> WasStarted(calls, n) && !WasStopped(calls, n)
    ensures n < |calls| && calls[n].CallStop? ==> IsDue(t, calls, n + 1, None)
  {
    if n < |calls| {
      FlagsAfter(t, calls, n);
    }
    hide WasStopped, WasStarted;
  }

  lemma CallSends(t: Timing, calls: seq<Call>, sent: seq<bool>, n: nat, h: Heartbeat)
    requires n < |calls| && |sent| == n && Tells(t, calls, sent, n, h)
    ensures AfterCall(t, h, calls[n]).active && !h.active <==> ShouldSend(t, calls, sent, n)
  {
    StartedMeansDue(t, calls, n, h.nextTickMs);
    hide WasStopped, WasStarted, WasReady, WasLost, IsBusy, IsDue;
  }

  lemma CallLoses(t: Timing, calls: seq<Call>, sent: seq<bool>, n: nat, h: Heartbeat)
    requires n < |calls| && |sent| == n && Tells(t, calls, sent, n, h)
    ensures AfterCall(t, h, calls[n]).lost <==> h.lost || CostsLease(t, calls, n)
  {
    hide WasStopped, WasStarted, WasReady, WasLost, IsBusy, IsDue, IsBeat;
  }

  lemma CallTicks(t: Timing, calls: seq<Call>, sent: seq<bool>, n: nat, h: Heartbeat)
    requires n < |calls| && |sent| == n && Tells(t, calls, sent, n, h)
    ensures IsDue(t, calls, n + 1, AfterCall(t, h, calls[n]).nextTickMs)
  {
    if !calls[n].CallStop? {
      DueAfter(t, calls, n, h.nextTickMs);
    }
    StartedMeansDue(t, calls, n, h.nextTickMs);
    hide WasStopped, WasStarted, WasReady, WasLost, IsBusy, IsDue;
  }

  lemma CallTells(t: Timing, calls: seq<Call>, sent: seq<bool>, n: nat, h: Heartbeat, sends: bool)
    requires n < |calls| && |sent| == n && Tells(t, calls, sent, n, h)
    requires sends <==> AfterCall(t, h, calls[n]).active && !h.active
    ensures Tells(t, calls, sent + [sends], n + 1, AfterCall(t, h, calls[n]))
    ensures sends <==> ShouldSend(t, calls, sent, n)
    ensures !h.lost && AfterCall(t, h, calls[n]).lost <==> CostsLease(t, calls, n) && !WasLost(t, calls, n)
  {
    FlagsAfter(t, calls, n);
    BusyAfter(calls, sent, n, sends);
    CallSends(t, calls, sent, n, h);
    CallLoses(t, calls, sent, n, h);
    CallTicks(t, calls, sent, n, h);
    hide WasStopped, WasStarted, WasReady, WasLost, IsBusy, IsDue, IsBeat, CostsLease, ShouldSend;
  }

  predicate SendsRightly(t: Timing, calls: seq<Call>, sent: seq<bool>) {
    |sent| <= |calls| && forall n | 0 <= n < |sent| :: sent[n] <==> ShouldSend(t, calls, sent, n)
  }

  /** Which calls send is decided by the calls before them, so it stays decided. */
  lemma SendsRightlyAfter(t: Timing, calls: seq<Call>, sent: seq<bool>, sends: bool)
    requires SendsRightly(t, calls, sent) && |sent| < |calls|
    requires sends <==> ShouldSend(t, calls, sent, |sent|)
    ensures SendsRightly(t, calls, sent + [sends])
  {
    var n := |sent|;
    BusyAfter(calls, sent, n, sends);
    hide WasStopped, WasStarted, WasReady, WasLost, IsBusy, IsBeat;
    forall k | 0 <= k <= n
      ensures (sent + [sends])[k] <==> ShouldSend(t, calls, sent + [sends], k)
    {
      assert IsBusy(calls, sent + [sends], k) <==> IsBusy(calls, sent, k);
      assert ShouldSend(t, calls, sent + [sends], k) <==> ShouldSend(t, calls, sent, k);
    }
  }

  lemma TellsDue(t: Timing, calls: seq<Call>, sent: seq<bool>, h: Heartbeat)
    requires |sent| == |calls| && Tells(t, calls, sent, |calls|, h)
    ensures IsDue(t, calls, |calls|, h.nextTickMs)
  {
  }

  lemma NothingTold(t: Timing, calls: seq<Call>)
    ensures Tells(t, calls, [], 0, IdleHeartbeat) && SendsRightly(t, calls, [])
  {
  }

  /**
   Any life of the object, by its calls alone: which of them send a command, which one announces the
   loss of the lease (the first that costs it), and when the timer fires next.
   */
  method LiveThrough(timing: Timing, calls: seq<Call>)
    returns (sent: seq<bool>, signalled: seq<bool>, due: Option<int>)
    requires IsAccepted(timing)
    ensures |sent| == |signalled| == |calls| && SendsRightly(timing, calls, sent)
    ensures forall i | 0 <= i < |calls| ::
              signalled[i] <==> CostsLease(timing, calls, i) && !WasLost(timing, calls, i)
    ensures IsDue(timing, calls, |calls|, due)
  {
    var heartbeat := new ImageWorkerHeartbeat(timing);
    sent, signalled := [], [];
    hide Tells, SendsRightly, CostsLease, WasLost, ShouldSend;
    NothingTold(timing, calls);
    for n := 0 to |calls|
      invariant fresh(heartbeat) && heartbeat.timing == timing && |sent| == |signalled| == n
      invariant Tells(timing, calls, sent, n, heartbeat.View())
      invariant SendsRightly(timing, calls, sent)
      invariant forall i | 0 <= i < n ::
                  signalled[i] <==> CostsLease(timing, calls, i) && !WasLost(timing, calls, i)
    {
      ghost var before := heartbeat.View();
      var sends, signals := false, false;
      match calls[n] {
        case CallAcquire => sends := heartbeat.Acquire();
        case CallStart(nowMs) => sends := heartbeat.StartTimer(nowMs);
        case CallTimer(nowMs) => sends := heartbeat.OnTimer(nowMs);
        case CallSettle(outcome, nowMs) => signals := heartbeat.SettlePublish(outcome, nowMs);
        case CallStop => heartbeat.StopTimer();
      }
      CallTells(timing, calls, sent, n, before, sends);
      SendsRightlyAfter(timing, calls, sent, sends);
      sent, signalled := sent + [sends], signalled + [signals];
    }
    due := heartbeat.nextTickMs;
    TellsDue(timing, calls, sent, heartbeat.View());
  }
}
