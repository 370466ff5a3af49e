/**
 Mutual exclusion of image workers. Any number of processes share one expiring key; commands may be
 executed late or never, replies may be lost up to the command timeout, processes may crash; timers are
 on time and everybody's clock is the key's clock. Whether two workers can ever consume at once depends
 on the three durations only, and the exact condition is proved in both directions.
 */
module WorkerLeaseRuns {
  import opened Outcomes
  import opened Multiples
  import opened WorkerLease

  /** A command on its way; `answer` is what the key said, once the command has been executed. */
  datatype Flight = Flight(sentAtMs: int, answer: Option<bool>)

  /**
   History that no step reads: when the last confirmed command was sent, the origin of the tick grid
   since then, and the ticks that failed on it.
   */
  datatype Grip = Grip(sentAtMs: int, originMs: int, missed: nat)

  datatype Process = Process(
    beat: Heartbeat,
    flight: Option<Flight>,
    consuming: bool,
    exited: bool,
    orphaned: bool,   // an abandoned command may still be executed
    grip: Grip)

  /** The lease key; the holder's token is its index. */
  datatype Holder = Holder(token: nat, expiresAtMs: int)

  datatype World = World(nowMs: int, key: Option<Holder>, processes: seq<Process>)

  datatype Event =
    | Boot
    | SendAcquire(i: nat)
    | Execute(i: nat)        // the key executes i's command in flight
    | ExecuteOrphan(i: nat)  // ... or one that i has given up on
    | Answer(i: nat)         // the reply reaches i in time
    | Break(i: nat)          // i's command fails or times out
    | Tick(i: nat)
    | Close(i: nat)          // graceful shutdown: the consumer is closed, then the heartbeat stops
    | Delete(i: nat)         // ... and its compare-and-delete is executed
    | Crash(i: nat)
    | Wait(ms: nat)

  // ---------------------------------------------------------------------------------------------
  // The key
  // ---------------------------------------------------------------------------------------------

  predicate IsLive(key: Option<Holder>, nowMs: int) {
    key.Some? && nowMs <= key.value.expiresAtMs
  }

  /** The acquire-or-refresh script. */
  predicate IsGranted(key: Option<Holder>, token: nat, nowMs: int) {
    IsLive(key, nowMs) ==> key.value.token == token
  }

  function AcquireRefresh(t: Timing, key: Option<Holder>, token: nat, nowMs: int): Option<Holder> {
    if IsGranted(key, token, nowMs) then Some(Holder(token, nowMs + t.ttlMs)) else key
  }

  /** The compare-and-delete script. */
  function CompareDelete(key: Option<Holder>, token: nat, nowMs: int): Option<Holder> {
    if IsLive(key, nowMs) && key.value.token == token then None else key
  }

  // ---------------------------------------------------------------------------------------------
  // Steps
  // ---------------------------------------------------------------------------------------------

  const NewProcess := Process(IdleHeartbeat, None, false, false, false, Grip(0, 0, 0))

  predicate IsConsuming(w: World, i: nat) {
    i < |w.processes| && w.processes[i].consuming
  }

  /** A beat that has just become active has sent a command. */
  function Send(p: Process, beat: Heartbeat, nowMs: int): Process {
    p.(beat := beat, flight := if beat.active && !p.beat.active then Some(Flight(nowMs, None)) else p.flight)
  }

  function Exit(p: Process): Process {
    p.(exited := true, consuming := false, flight := None, orphaned := true)
  }

  /**
   startLeasedImageConsumer: the consumer runs only after acquire(). A lost lease stops the process, and
   so does a refused start; a stopped heartbeat is left to the shutdown under way.
   */
  function OnAnswer(t: Timing, p: Process, granted: bool, nowMs: int): Process
    requires p.flight.Some?
  {
    var settled := p.(
      beat := Settle(t, p.beat, if granted then Granted else Refused, nowMs),
      flight := None);
    var sentAtMs := p.flight.value.sentAtMs;
    if settled.beat.lost || (!granted && !settled.beat.readySent) then Exit(settled)
    else if !granted then settled
    else if p.beat.nextTickMs.None? && !p.beat.stopped then
      Send(settled, Start(t, settled.beat, nowMs), nowMs).(consuming := true, grip := Grip(sentAtMs, nowMs, 0))
    else
      settled.(grip := Grip(sentAtMs, sentAtMs, 1))
  }

  function OnBreak(t: Timing, p: Process, nowMs: int): Process {
    var settled := p.(beat := Settle(t, p.beat, Broken, nowMs), flight := None, orphaned := true);
    if settled.beat.lost || !settled.beat.readySent then Exit(settled)
    else settled.(grip := p.grip.(missed := p.grip.missed + 1))
  }

  function OnTick(t: Timing, p: Process, nowMs: int): Process {
    Send(p, FireTimer(t, p.beat, nowMs), nowMs)
  }

  function WithProcess(w: World, i: nat, p: Process): World
    requires i < |w.processes|
  {
    w.(processes := w.processes[i := p])
  }

  /** Steps that are not legal change nothing. */
  function Next(t: Timing, w: World, e: Event): World {
    if !IsLegal(t, w, e) then w
    else
      match e
      case Boot => w.(processes := w.processes + [NewProcess])
      case Wait(ms) => w.(nowMs := w.nowMs + ms)
      case SendAcquire(i) =>
        WithProcess(w, i, Send(w.processes[i], BeginAcquire(w.processes[i].beat), w.nowMs))
      case Execute(i) =>
        var p := w.processes[i];
        var flight := p.flight.value.(answer := Some(IsGranted(w.key, i, w.nowMs)));
        WithProcess(w, i, p.(flight := Some(flight))).(key := AcquireRefresh(t, w.key, i, w.nowMs))
      case ExecuteOrphan(i) => w.(key := AcquireRefresh(t, w.key, i, w.nowMs))
      case Answer(i) =>
        WithProcess(w, i, OnAnswer(t, w.processes[i], w.processes[i].flight.value.answer.value, w.nowMs))
      case Break(i) => WithProcess(w, i, OnBreak(t, w.processes[i], w.nowMs))
      case Tick(i) => WithProcess(w, i, OnTick(t, w.processes[i], w.nowMs))
      case Close(i) =>
        var p := w.processes[i];
        WithProcess(w, i, p.(beat := Stop(p.beat), consuming := false))
      case Delete(i) => w.(key := CompareDelete(w.key, i, w.nowMs))
      case Crash(i) => WithProcess(w, i, Exit(w.processes[i]))
  }

  predicate IsRunning(w: World, i: nat) {
    i < |w.processes| && !w.processes[i].exited
  }

  predicate HasFlight(w: World, i: nat) {
    IsRunning(w, i) && w.processes[i].flight.Some?
  }

  /** The latest moment up to which this process lets time pass without a step of its own. */
  predicate Allows(t: Timing, p: Process, nowMs: int) {
    !p.exited ==>
      && (p.flight.Some? ==> nowMs <= p.flight.value.sentAtMs + t.commandTimeoutMs)
      && (p.beat.nextTickMs.Some? ==> nowMs <= p.beat.nextTickMs.value)
  }

  predicate IsLegal(t: Timing, w: World, e: Event) {
    match e
    case Boot => true
    case SendAcquire(i) =>
      && IsRunning(w, i) && w.processes[i].flight.None?
      && !w.processes[i].beat.stopped && !w.processes[i].beat.readySent
    case Execute(i) => HasFlight(w, i) && w.processes[i].flight.value.answer.None?
    case ExecuteOrphan(i) => i < |w.processes| && w.processes[i].orphaned
    case Answer(i) => HasFlight(w, i) && w.processes[i].flight.value.answer.Some?
    case Break(i) => HasFlight(w, i)
    case Tick(i) =>
      && IsRunning(w, i) && w.processes[i].beat.nextTickMs == Some(w.nowMs)
      // A command deadline that falls on a tick is handled first.
      && (HasFlight(w, i) ==> w.nowMs < w.processes[i].flight.value.sentAtMs + t.commandTimeoutMs)
    case Close(i) => IsRunning(w, i)
    case Delete(i) => i < |w.processes| && w.processes[i].beat.stopped
    case Crash(i) => i < |w.processes|
    case Wait(ms) => forall p | p in w.processes :: Allows(t, p, w.nowMs + ms)
  }

  const EmptyWorld := World(0, None, [])

  function RunAll(t: Timing, w: World, es: seq<Event>): World {
    if es == [] then w else Next(t, RunAll(t, w, es[..|es| - 1]), es[|es| - 1])
  }

  ghost predicate IsReachable(t: Timing, w: World) {
    exists es: seq<Event> :: RunAll(t, EmptyWorld, es) == w
  }

  ghost predicate HasOverlap(w: World) {
    exists i: nat, j: nat :: i != j && IsConsuming(w, i) && IsConsuming(w, j)
  }

  // ---------------------------------------------------------------------------------------------
  // The condition on the durations
  // ---------------------------------------------------------------------------------------------

  /**
   No tick falls into the last `commandTimeout` before the lease can run out: counted on the grid of a
   confirmed refresh, and on the grid that starts with the acquiring reply.
   */
  predicate IsSafeTiming(t: Timing)
    requires IsAccepted(t)
  {
    && IsClear(t.ttlMs, t.intervalMs, t.commandTimeoutMs)
    && IsClear(t.ttlMs - t.commandTimeoutMs, t.intervalMs, t.commandTimeoutMs)
  }

  predicate IsClear(endMs: int, intervalMs: int, marginMs: int)
    requires 0 < intervalMs
  {
    endMs % intervalMs == 0 || marginMs <= endMs % intervalMs
  }

  /** The remainder test says exactly that no multiple lies strictly inside the margin. */
  lemma ClearMeansNoMultiple(endMs: int, intervalMs: int, marginMs: int, k: nat)
    requires 0 < marginMs <= intervalMs && IsClear(endMs, intervalMs, marginMs)
    requires k * intervalMs < endMs
    ensures k * intervalMs <= endMs - marginMs
  {
    if endMs - marginMs < k * intervalMs {
      RemainderIsUnique(endMs, intervalMs, k, endMs - k * intervalMs);
    }
  }

  lemma UnclearHasMultiple(endMs: int, intervalMs: int, marginMs: int) returns (k: nat)
    requires 0 < marginMs <= intervalMs && 0 <= endMs && !IsClear(endMs, intervalMs, marginMs)
    ensures endMs - marginMs < k * intervalMs < endMs
  {
    k := endMs / intervalMs;
    assert endMs == k * intervalMs + endMs % intervalMs;
  }

  lemma DefaultsAreSafe()
    ensures IsAccepted(DEFAULT_TIMING) && IsSafeTiming(DEFAULT_TIMING)
  {
  }

  /** A rule of thumb: a whole number of intervals per lease, and two timeouts within one interval. */
  lemma WholeIntervalsAreSafe(t: Timing)
    requires IsAccepted(t) && t.ttlMs % t.intervalMs == 0 && 2 * t.commandTimeoutMs <= t.intervalMs
    ensures IsSafeTiming(t)
  {
    var T, I, C := t.ttlMs, t.intervalMs, t.commandTimeoutMs;
    var q := T / I;
    assert T - C == (q - 1) * I + (I - C);
    RemainderIsUnique(T - C, I, q - 1, I - C);
  }

  /** One millisecond off the default interval is accepted by the constructor and not safe. */
  lemma AcceptedIsNotSafe()
    ensures IsAccepted(Timing(15_000, 4_999, 1_000)) && !IsSafeTiming(Timing(15_000, 4_999, 1_000))
  {
  }

  // ---------------------------------------------------------------------------------------------
  // Safe timing excludes overlap
  // ---------------------------------------------------------------------------------------------

  /** The k-th tick of a grid. */
  function GridTick(t: Timing, originMs: int, k: nat): int {
    originMs + k * t.intervalMs
  }

  /** The tick whose command is in flight, or else the next one. */
  function DecidingTick(p: Process): int
    requires p.beat.nextTickMs.Some?
  {
    if p.flight.Some? then p.flight.value.sentAtMs else p.beat.nextTickMs.value
  }

  predicate HasFreshGrip(t: Timing, p: Process, nowMs: int)
    requires p.beat.lastSuccessMs.Some?
  {
    var last := p.beat.lastSuccessMs.value;
    && p.grip.sentAtMs <= last <= p.grip.sentAtMs + t.commandTimeoutMs
    && last <= nowMs
    && (p.grip.originMs == p.grip.sentAtMs || p.grip.originMs == last)
  }

  /** A consuming process still holds the key and will renew or give up before the key can expire. */
  predicate HoldsOn(t: Timing, p: Process, i: nat, key: Option<Holder>, nowMs: int) {
    && !p.exited && p.beat.readySent && !p.beat.lost && !p.beat.stopped
    && p.beat.nextTickMs.Some? && p.beat.lastSuccessMs.Some?
    && (p.beat.active <==> p.flight.Some?)
    && HasFreshGrip(t, p, nowMs)
    && DecidingTick(p) == GridTick(t, p.grip.originMs, p.grip.missed)
    && DecidingTick(p) + t.commandTimeoutMs <= p.grip.sentAtMs + t.ttlMs
    && Allows(t, p, nowMs)
    && key.Some? && key.value.token == i && p.grip.sentAtMs + t.ttlMs <= key.value.expiresAtMs
    && (p.flight.Some? ==>
          && p.flight.value.sentAtMs <= nowMs
          && p.beat.nextTickMs.value == p.flight.value.sentAtMs + t.intervalMs
          && p.flight.value.answer != Some(false)
          && (p.flight.value.answer == Some(true) ==>
                p.flight.value.sentAtMs + t.ttlMs <= key.value.expiresAtMs))
  }

  /** A process that has not started yet holds the key if its acquiring command was granted. */
  predicate IsStarting(t: Timing, p: Process, i: nat, key: Option<Holder>, nowMs: int) {
    && !p.beat.readySent && !p.beat.lost && p.beat.nextTickMs.None?
    && (p.beat.active <==> p.flight.Some?)
    && Allows(t, p, nowMs)
    && (p.flight.Some? ==>
          && p.flight.value.sentAtMs <= nowMs
          && (p.flight.value.answer == Some(true) ==>
                && key.Some? && key.value.token == i
                && p.flight.value.sentAtMs + t.ttlMs <= key.value.expiresAtMs))
  }

  predicate IsPlaced(t: Timing, p: Process, i: nat, key: Option<Holder>, nowMs: int) {
    && (p.consuming ==> HoldsOn(t, p, i, key, nowMs))
    && (!p.consuming && !p.exited && !p.beat.stopped ==> IsStarting(t, p, i, key, nowMs))
  }

  predicate IsGood(t: Timing, w: World) {
    forall i | 0 <= i < |w.processes| :: IsPlaced(t, w.processes[i], i, w.key, w.nowMs)
  }

  /** The key of a consuming process, or of one with a granted answer on its way, is live. */
  lemma HeldKeyIsLive(t: Timing, p: Process, i: nat, key: Option<Holder>, nowMs: int)
    requires IsAccepted(t) && IsPlaced(t, p, i, key, nowMs)
    requires p.consuming || (!p.exited && !p.beat.stopped && p.flight.Some? && p.flight.value.answer == Some(true))
    ensures IsLive(key, nowMs) && key.value.token == i
  {
  }

  /** What the scripts do for another token leaves a placed process in place. */
  lemma OthersLeaveKey(t: Timing, p: Process, i: nat, key: Option<Holder>, other: Option<Holder>, nowMs: int)
    requires IsAccepted(t) && IsPlaced(t, p, i, key, nowMs)
    requires IsLive(key, nowMs) && key.value.token == i ==> other == key
    ensures IsPlaced(t, p, i, other, nowMs)
  {
    if p.consuming || (!p.exited && !p.beat.stopped && p.flight.Some? && p.flight.value.answer == Some(true)) {
      HeldKeyIsLive(t, p, i, key, nowMs);
    }
  }

  /** A refresh of its own key, in flight or abandoned, only extends it. */
  lemma OwnRefreshExtends(t: Timing, p: Process, i: nat, key: Option<Holder>, nowMs: int)
    requires IsAccepted(t) && IsPlaced(t, p, i, key, nowMs)
    ensures IsPlaced(t, p, i, AcquireRefresh(t, key, i, nowMs), nowMs)
    ensures p.flight.Some? && p.flight.value.answer.None? ==>
              var flight := p.flight.value.(answer := Some(IsGranted(key, i, nowMs)));
              IsPlaced(t, p.(flight := Some(flight)), i, AcquireRefresh(t, key, i, nowMs), nowMs)
  {
    if p.consuming {
      HeldKeyIsLive(t, p, i, key, nowMs);
    }
  }

  lemma NextGridTick(t: Timing, originMs: int, k: nat)
    ensures GridTick(t, originMs, k + 1) == GridTick(t, originMs, k) + t.intervalMs
    ensures GridTick(t, originMs, 0) == originMs
  {
  }

  lemma AnswerKeepsPlace(t: Timing, p: Process, i: nat, key: Option<Holder>, nowMs: int)
    requires IsAccepted(t) && IsSafeTiming(t) && IsPlaced(t, p, i, key, nowMs)
    requires !p.exited && p.flight.Some? && p.flight.value.answer.Some?
    ensures IsPlaced(t, OnAnswer(t, p, p.flight.value.answer.value, nowMs), i, key, nowMs)
  {
    ClearMeansNoMultiple(t.ttlMs, t.intervalMs, t.commandTimeoutMs, 1);
    ClearMeansNoMultiple(t.ttlMs - t.commandTimeoutMs, t.intervalMs, t.commandTimeoutMs, 0);
    NextGridTick(t, p.flight.value.sentAtMs, 0);
    NextGridTick(t, nowMs, 0);
    hide IsSafeTiming, GridTick;
  }

  /** After a failed refresh that is tolerated, the next decision still comes before the key can expire. */
  lemma ToleratedBreakIsInTime(t: Timing, g: Grip, lastMs: int, nowMs: int)
    requires IsAccepted(t) && IsSafeTiming(t)
    requires g.sentAtMs <= lastMs <= g.sentAtMs + t.commandTimeoutMs
    requires g.originMs == g.sentAtMs || g.originMs == lastMs
    requires GridTick(t, g.originMs, g.missed) <= nowMs
    requires nowMs + t.intervalMs + t.commandTimeoutMs < lastMs + t.ttlMs
    ensures GridTick(t, g.originMs, g.missed + 1) + t.commandTimeoutMs <= g.sentAtMs + t.ttlMs
  {
    NextGridTick(t, g.originMs, g.missed);
    var k := g.missed + 1;
    assert GridTick(t, g.originMs, k) == g.originMs + k * t.intervalMs;
    if g.originMs == lastMs {
      ClearMeansNoMultiple(t.ttlMs - t.commandTimeoutMs, t.intervalMs, t.commandTimeoutMs, k);
    } else {
      ClearMeansNoMultiple(t.ttlMs, t.intervalMs, t.commandTimeoutMs, k);
    }
  }

  lemma BreakKeepsPlace(t: Timing, p: Process, i: nat, key: Option<Holder>, nowMs: int)
    requires IsAccepted(t) && IsSafeTiming(t) && IsPlaced(t, p, i, key, nowMs)
    requires !p.exited && p.flight.Some?
    ensures IsPlaced(t, OnBreak(t, p, nowMs), i, key, nowMs)
  {
    if p.consuming && !IsExhausted(t, p.beat, nowMs) {
      ToleratedBreakIsInTime(t, p.grip, p.beat.lastSuccessMs.value, nowMs);
      NextGridTick(t, p.grip.originMs, p.grip.missed);
    }
    hide IsSafeTiming, GridTick;
  }

  lemma TickKeepsPlace(t: Timing, p: Process, i: nat, key: Option<Holder>, nowMs: int)
    requires IsAccepted(t) && IsPlaced(t, p, i, key, nowMs)
    requires !p.exited && p.beat.nextTickMs == Some(nowMs)
    requires p.flight.Some? ==> nowMs < p.flight.value.sentAtMs + t.commandTimeoutMs
    ensures IsPlaced(t, OnTick(t, p, nowMs), i, key, nowMs)
  {
    hide GridTick;
  }

  /** One process has changed, and the key as far as the others may notice. */
  lemma OneProcessMoves(t: Timing, w: World, i: nat, p: Process, key: Option<Holder>)
    requires IsAccepted(t) && IsGood(t, w) && i < |w.processes|
    requires IsPlaced(t, p, i, key, w.nowMs)
    requires IsLive(w.key, w.nowMs) && w.key.value.token != i ==> key == w.key
    ensures IsGood(t, WithProcess(w, i, p).(key := key))
  {
    forall j: nat | j < |w.processes| && j != i
      ensures IsPlaced(t, w.processes[j], j, key, w.nowMs)
    {
      OthersLeaveKey(t, w.processes[j], j, w.key, key, w.nowMs);
    }
    hide IsPlaced;
  }

  lemma TimePasses(t: Timing, w: World, ms: nat)
    requires IsGood(t, w) && IsLegal(t, w, Wait(ms))
    ensures IsGood(t, Next(t, w, Wait(ms)))
  {
    forall i | 0 <= i < |w.processes|
      ensures IsPlaced(t, w.processes[i], i, w.key, w.nowMs + ms)
    {
      assert w.processes[i] in w.processes;
    }
  }

  lemma StepKeepsGood(t: Timing, w: World, e: Event)
    requires IsAccepted(t) && IsSafeTiming(t) && IsGood(t, w)
    ensures IsGood(t, Next(t, w, e))
  {
    hide IsSafeTiming, HoldsOn, IsStarting, OnAnswer, OnBreak, OnTick, Allows;
    if IsLegal(t, w, e) {
      match e {
        case Boot => BootedIsPlaced(t, w);
        case Wait(ms) => TimePasses(t, w, ms);
        case SendAcquire(i) =>
          SentIsPlaced(t, w.processes[i], i, w.key, w.nowMs);
          OneProcessMoves(t, w, i, Send(w.processes[i], BeginAcquire(w.processes[i].beat), w.nowMs), w.key);
        case Execute(i) =>
          var p := w.processes[i];
          var key := AcquireRefresh(t, w.key, i, w.nowMs);
          OwnRefreshExtends(t, p, i, w.key, w.nowMs);
          var flight := p.flight.value.(answer := Some(IsGranted(w.key, i, w.nowMs)));
          OneProcessMoves(t, w, i, p.(flight := Some(flight)), key);
        case ExecuteOrphan(i) =>
          var p := w.processes[i];
          OwnRefreshExtends(t, p, i, w.key, w.nowMs);
          OneProcessMoves(t, w, i, p, AcquireRefresh(t, w.key, i, w.nowMs));
          assert w.processes[i := p] == w.processes;
        case Answer(i) =>
          var p := w.processes[i];
          AnswerKeepsPlace(t, p, i, w.key, w.nowMs);
          OneProcessMoves(t, w, i, OnAnswer(t, p, p.flight.value.answer.value, w.nowMs), w.key);
        case Break(i) =>
          BreakKeepsPlace(t, w.processes[i], i, w.key, w.nowMs);
          OneProcessMoves(t, w, i, OnBreak(t, w.processes[i], w.nowMs), w.key);
        case Tick(i) =>
          TickKeepsPlace(t, w.processes[i], i, w.key, w.nowMs);
          OneProcessMoves(t, w, i, OnTick(t, w.processes[i], w.nowMs), w.key);
        case Close(i) =>
          var p := w.processes[i];
          OneProcessMoves(t, w, i, p.(beat := Stop(p.beat), consuming := false), w.key);
        case Delete(i) =>
          var p := w.processes[i];
          StoppedIsPlaced(t, p, i, w.key, CompareDelete(w.key, i, w.nowMs), w.nowMs);
          OneProcessMoves(t, w, i, p, CompareDelete(w.key, i, w.nowMs));
          assert w.processes[i := p] == w.processes;
        case Crash(i) =>
          OneProcessMoves(t, w, i, Exit(w.processes[i]), w.key);
      }
    }
  }

  lemma BootedIsPlaced(t: Timing, w: World)
    requires IsGood(t, w)
    ensures IsGood(t, w.(processes := w.processes + [NewProcess]))
  {
    assert IsPlaced(t, NewProcess, |w.processes|, w.key, w.nowMs);
    hide IsPlaced;
  }

  lemma SentIsPlaced(t: Timing, p: Process, i: nat, key: Option<Holder>, nowMs: int)
    requires IsAccepted(t) && IsPlaced(t, p, i, key, nowMs)
    requires !p.exited && p.flight.None? && !p.beat.stopped && !p.beat.readySent
    ensures IsPlaced(t, Send(p, BeginAcquire(p.beat), nowMs), i, key, nowMs)
  {
  }

  lemma StoppedIsPlaced(t: Timing, p: Process, i: nat, key: Option<Holder>, other: Option<Holder>, nowMs: int)
    requires IsPlaced(t, p, i, key, nowMs) && p.beat.stopped
    ensures IsPlaced(t, p, i, other, nowMs)
  {
  }

  lemma {:induction false} RunsStayGood(t: Timing, es: seq<Event>)
    requires IsAccepted(t) && IsSafeTiming(t)
    ensures IsGood(t, RunAll(t, EmptyWorld, es))
  {
    hide IsSafeTiming, IsPlaced, Next;
    if es != [] {
      RunsStayGood(t, es[..|es| - 1]);
      StepKeepsGood(t, RunAll(t, EmptyWorld, es[..|es| - 1]), es[|es| - 1]);
    }
  }

  /** In a reachable world under safe timing, who consumes holds the live key: so nobody else does. */
  lemma ConsumersHoldTheKey(t: Timing, w: World, i: nat)
    requires IsAccepted(t) && IsSafeTiming(t) && IsReachable(t, w) && IsConsuming(w, i)
    ensures IsLive(w.key, w.nowMs) && w.key.value.token == i
  {
    hide IsSafeTiming, RunAll;
    var es: seq<Event> :| RunAll(t, EmptyWorld, es) == w;
    RunsStayGood(t, es);
    HeldKeyIsLive(t, w.processes[i], i, w.key, w.nowMs);
  }

  lemma SafeTimingExcludesOverlap(t: Timing, w: World)
    requires IsAccepted(t) && IsSafeTiming(t) && IsReachable(t, w)
    ensures !HasOverlap(w)
  {
    hide IsReachable, IsSafeTiming;
    if i: nat, j: nat :| i != j && IsConsuming(w, i) && IsConsuming(w, j) {
      ConsumersHoldTheKey(t, w, i);
      ConsumersHoldTheKey(t, w, j);
      assert false;
    }
  }

  // ---------------------------------------------------------------------------------------------
  // A refused process is silent, whatever the timing
  // ---------------------------------------------------------------------------------------------

  /** A process consumes exactly while its heartbeat is ready and neither stopped nor given up. */
  predicate IsInStep(p: Process) {
    && (p.consuming ==> !p.exited && p.beat.readySent && !p.beat.stopped)
    && ((p.beat.readySent || p.beat.nextTickMs.Some?) && !p.exited && !p.beat.stopped ==> p.consuming)
    && (p.beat.stopped ==> p.beat.nextTickMs.None?)
  }

  lemma StepKeepsInStep(t: Timing, w: World, e: Event, i: nat)
    requires i < |w.processes| ==> IsInStep(w.processes[i])
    ensures i < |Next(t, w, e).processes| ==> IsInStep(Next(t, w, e).processes[i])
  {
    hide IsExhausted, Allows;
  }

  lemma {:induction false} RunsStayInStep(t: Timing, es: seq<Event>, i: nat)
    ensures var w := RunAll(t, EmptyWorld, es); i < |w.processes| ==> IsInStep(w.processes[i])
  {
    hide Next, IsInStep;
    if es != [] {
      RunsStayInStep(t, es[..|es| - 1], i);
      StepKeepsInStep(t, RunAll(t, EmptyWorld, es[..|es| - 1]), es[|es| - 1], i);
    }
  }

  /** It neither consumes nor sends, and it never will. */
  predicate IsSilent(w: World, i: nat) {
    && i < |w.processes|
    && var p := w.processes[i];
       && !p.consuming && p.flight.None?
       && (p.exited || (p.beat.stopped && p.beat.nextTickMs.None?))
  }

  lemma SilentStaysSilent(t: Timing, w: World, e: Event, i: nat)
    requires IsSilent(w, i)
    ensures IsSilent(Next(t, w, e), i)
  {
    hide Allows;
  }

  /**
   For all durations: once the key's answer that another one owns it has reached a process, the process
   does not consume and has no command on its way, whatever happens from then on.
   */
  lemma {:induction false} RefusedIsSilent(t: Timing, w: World, i: nat, later: seq<Event>)
    requires IsReachable(t, w) && HasFlight(w, i) && w.processes[i].flight.value.answer == Some(false)
    ensures IsSilent(RunAll(t, Next(t, w, Answer(i)), later), i)
  {
    if later == [] {
      var es: seq<Event> :| RunAll(t, EmptyWorld, es) == w;
      RunsStayInStep(t, es, i);
    } else {
      RefusedIsSilent(t, w, i, later[..|later| - 1]);
      SilentStaysSilent(t, RunAll(t, Next(t, w, Answer(i)), later[..|later| - 1]), later[|later| - 1], i);
    }
  }

  lemma {:induction false} OrphansStay(t: Timing, w: World, i: nat, later: seq<Event>)
    requires i < |w.processes| && w.processes[i].orphaned
    ensures var left := RunAll(t, w, later); i < |left.processes| && left.processes[i].orphaned
  {
    hide Allows;
    if later != [] {
      OrphansStay(t, w, i, later[..|later| - 1]);
    }
  }

  /**
   For all durations: a command that its process gave up on, or died on, may still take a key that has run
   out, for a full lease, whatever happened in between.
   */
  lemma AbandonedCommandTakesKey(t: Timing, w: World, i: nat, end: Event, later: seq<Event>)
    requires HasFlight(w, i) && end in {Break(i), Crash(i)}
    ensures var left := RunAll(t, Next(t, w, end), later);
            !IsLive(left.key, left.nowMs) ==>
              Next(t, left, ExecuteOrphan(i)).key == Some(Holder(i, left.nowMs + t.ttlMs))
  {
    OrphansStay(t, Next(t, w, end), i, later);
    hide RunAll, Allows;
  }

  // ---------------------------------------------------------------------------------------------
  // Any other timing allows overlap
  // ---------------------------------------------------------------------------------------------

  lemma ReachNext(t: Timing, w: World, e: Event)
    requires IsReachable(t, w)
    ensures IsReachable(t, Next(t, w, e))
  {
    hide Next;
    var es: seq<Event> :| RunAll(t, EmptyWorld, es) == w;
    var longer := es + [e];
    assert longer[..|longer| - 1] == es;
    assert RunAll(t, EmptyWorld, longer) == Next(t, w, e);
  }

  /** The first of two processes consumes; its refresh sent at `tickMs` is on its way, the key as it was. */
  predicate IsStuck(t: Timing, w: World, tickMs: int, lastMs: int) {
    && |w.processes| == 2
    && w.processes[0].beat == Heartbeat(Some(tickMs + t.intervalMs), true, true, false, Some(lastMs), false)
    && w.processes[0].flight == Some(Flight(tickMs, None))
    && w.processes[0].consuming && !w.processes[0].exited
    && w.processes[1] == NewProcess
    && w.nowMs == tickMs
    && w.key == Some(Holder(0, t.ttlMs))
  }

  /** It fails at once and is tolerated; the next tick sends another. */
  lemma StuckUntilNextTick(t: Timing, w: World, tickMs: int, lastMs: int) returns (next: World)
    requires IsAccepted(t) && IsReachable(t, w) && IsStuck(t, w, tickMs, lastMs)
    requires tickMs + t.intervalMs + t.commandTimeoutMs < lastMs + t.ttlMs
    ensures IsReachable(t, next) && IsStuck(t, next, tickMs + t.intervalMs, lastMs)
  {
    hide IsReachable;
    var broken := Next(t, w, Break(0));
    var waited := Next(t, broken, Wait(t.intervalMs));
    next := Next(t, waited, Tick(0));
    ReachNext(t, w, Break(0));
    ReachNext(t, broken, Wait(t.intervalMs));
    ReachNext(t, waited, Tick(0));
  }

  lemma {:induction false} StuckOnGrid(t: Timing, w: World, tickMs: int, lastMs: int, k: nat)
    returns (next: World)
    requires IsAccepted(t) && IsReachable(t, w) && IsStuck(t, w, tickMs, lastMs)
    requires GridTick(t, tickMs, k) + t.commandTimeoutMs < lastMs + t.ttlMs
    ensures IsReachable(t, next) && IsStuck(t, next, GridTick(t, tickMs, k), lastMs)
  {
    hide IsReachable;
    if k == 0 {
      next := w;
    } else {
      NextGridTick(t, tickMs, k - 1);
      var before := StuckOnGrid(t, w, tickMs, lastMs, k - 1);
      next := StuckUntilNextTick(t, before, GridTick(t, tickMs, k - 1), lastMs);
    }
  }

  /** Its key expires while its last refresh hangs, and the second process takes over. */
  lemma StuckIsOverlapped(t: Timing, w: World, tickMs: int, lastMs: int) returns (next: World)
    requires IsAccepted(t) && IsReachable(t, w) && IsStuck(t, w, tickMs, lastMs)
    requires tickMs < t.ttlMs < tickMs + t.commandTimeoutMs
    ensures IsReachable(t, next) && HasOverlap(next)
  {
    hide IsReachable;
    var waiting := Wait(t.ttlMs + 1 - tickMs);
    var waited := Next(t, w, waiting);
    var sent := Next(t, waited, SendAcquire(1));
    var executed := Next(t, sent, Execute(1));
    next := Next(t, executed, Answer(1));
    ReachNext(t, w, waiting);
    ReachNext(t, waited, SendAcquire(1));
    ReachNext(t, sent, Execute(1));
    ReachNext(t, executed, Answer(1));
    assert IsConsuming(next, 0) && IsConsuming(next, 1);
  }

  /** Two processes; the first has sent its acquiring command at time 0 and the key has granted it. */
  lemma GrantedAtZero(t: Timing) returns (w: World)
    requires IsAccepted(t)
    ensures IsReachable(t, w)
    ensures w == World(
                   0, Some(Holder(0, t.ttlMs)),
                   [NewProcess.(beat := IdleHeartbeat.(active := true), flight := Some(Flight(0, Some(true)))),
                    NewProcess])
  {
    EmptyIsReachable(t);
    hide IsReachable;
    var one := Next(t, EmptyWorld, Boot);
    var two := Next(t, one, Boot);
    var sent := Next(t, two, SendAcquire(0));
    w := Next(t, sent, Execute(0));
    ReachNext(t, EmptyWorld, Boot);
    ReachNext(t, one, Boot);
    ReachNext(t, two, SendAcquire(0));
    ReachNext(t, sent, Execute(0));
  }

  lemma EmptyIsReachable(t: Timing)
    ensures IsReachable(t, EmptyWorld)
  {
    assert RunAll(t, EmptyWorld, []) == EmptyWorld;
  }

  /** The acquiring reply takes the whole timeout: the tick grid starts late. */
  lemma LateStart(t: Timing) returns (w: World)
    requires IsAccepted(t)
    ensures IsReachable(t, w) && IsStuck(t, w, t.commandTimeoutMs, t.commandTimeoutMs)
  {
    hide IsReachable;
    var granted := GrantedAtZero(t);
    var waited := Next(t, granted, Wait(t.commandTimeoutMs));
    w := Next(t, waited, Answer(0));
    ReachNext(t, granted, Wait(t.commandTimeoutMs));
    ReachNext(t, waited, Answer(0));
  }

  /** The reply to the first refresh takes the whole timeout: the confirmation is dated late. */
  lemma LateConfirmation(t: Timing) returns (w: World)
    requires IsAccepted(t)
    ensures IsReachable(t, w) && IsStuck(t, w, t.intervalMs, t.commandTimeoutMs)
  {
    hide IsReachable;
    var granted := GrantedAtZero(t);
    var started := Next(t, granted, Answer(0));
    var refreshed := Next(t, started, Execute(0));
    var waited := Next(t, refreshed, Wait(t.commandTimeoutMs));
    var confirmed := Next(t, waited, Answer(0));
    var idle := Wait(t.intervalMs - t.commandTimeoutMs);
    var due := Next(t, confirmed, idle);
    w := Next(t, due, Tick(0));
    ReachNext(t, granted, Answer(0));
    ReachNext(t, started, Execute(0));
    ReachNext(t, refreshed, Wait(t.commandTimeoutMs));
    ReachNext(t, waited, Answer(0));
    ReachNext(t, confirmed, idle);
    ReachNext(t, due, Tick(0));
  }

  lemma UnsafeTimingOverlaps(t: Timing) returns (w: World)
    requires IsAccepted(t) && !IsSafeTiming(t)
    ensures IsReachable(t, w) && HasOverlap(w)
  {
    var T, I, C := t.ttlMs, t.intervalMs, t.commandTimeoutMs;
    hide IsReachable, HasOverlap, IsStuck, IsClear;
    if !IsClear(T - C, I, C) {
      var k := UnclearHasMultiple(T - C, I, C);
      var late := LateStart(t);
      var stuck := StuckOnGrid(t, late, C, C, k);
      w := StuckIsOverlapped(t, stuck, GridTick(t, C, k), C);
    } else {
      var m := UnclearHasMultiple(T, I, C);
      assert m != 0;
      var late := LateConfirmation(t);
      NextGridTick(t, 0, m - 1);
      assert GridTick(t, I, m - 1) == GridTick(t, 0, m);
      var stuck := StuckOnGrid(t, late, I, C, m - 1);
      w := StuckIsOverlapped(t, stuck, GridTick(t, I, m - 1), C);
    }
  }

  /** Among the durations the constructor accepts, exactly the safe ones never let two workers consume. */
  lemma ExclusionIsExact(t: Timing)
    requires IsAccepted(t)
    ensures IsSafeTiming(t) <==> forall w | IsReachable(t, w) :: !HasOverlap(w)
  {
    hide IsReachable, HasOverlap, IsClear;
    if IsSafeTiming(t) {
      forall w | IsReachable(t, w)
        ensures !HasOverlap(w)
      {
        SafeTimingExcludesOverlap(t, w);
      }
    } else {
      var w := UnsafeTimingOverlaps(t);
    }
  }
}
