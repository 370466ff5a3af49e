/** What holds of one ledger row over every history of commands, accepted or rejected. */
module ImageJobRuns {
  import opened Outcomes
  import opened ImageJobPolicy
  import opened ImageJobEffects

  /** A rejected command leaves the row alone. */
  function Step(job: ImageJob, c: Command): ImageJob {
    match Transition(job, c)
    case Ok(next) => next
    case Err(_) => job
  }

  function Replay(job: ImageJob, cs: seq<Command>): ImageJob {
    if cs == [] then job else Step(Replay(job, cs[..|cs| - 1]), cs[|cs| - 1])
  }

  /** The accepted commands, in order. */
  function Log(job: ImageJob, cs: seq<Command>): seq<Command> {
    if cs == [] then []
    else
      var front, c := cs[..|cs| - 1], cs[|cs| - 1];
      Log(job, front) + (if Transition(Replay(job, front), c).Ok? then [c] else [])
  }

  lemma {:induction false} ReplayStaysSound(job: ImageJob, cs: seq<Command>)
    requires IsSound(job)
    ensures IsSound(Replay(job, cs))
    ensures Replay(job, cs).version == job.version + |Log(job, cs)|
    ensures |Log(job, cs)| <= |cs|
  {
    if cs != [] {
      var front, c := cs[..|cs| - 1], cs[|cs| - 1];
      ReplayStaysSound(job, front);
      if Transition(Replay(job, front), c).Ok? {
        AcceptedIsSoundStep(Replay(job, front), c);
      }
      hide IsValid, IsConsistent, Transition, IsPermitted;
    }
  }

  /**
   From creation on, whatever is thrown at the row: the assertion that closes transitionImageJob holds,
   and a claim of processing is never refused for lack of attempts.
   */
  lemma CreatedJobsNeverBreak(input: NewImageJob, atMs: int, cs: seq<Command>, c: Command)
    requires CreateImageJob(input, atMs).Ok? && |cs| < MAX_SAFE_INTEGER
    ensures var job := Replay(CreateImageJob(input, atMs).value, cs);
            && IsSound(job)
            && (RequireFresh(job, c).Pass? ==> Transition(job, c) == Apply(job, c))
            && (c.action.ClaimProcessing? ==> Transition(job, c) != Err(AttemptsExhausted))
  {
    CreatedJobIsSound(input, atMs);
    var created := CreateImageJob(input, atMs).value;
    ReplayStaysSound(created, cs);
    var job := Replay(created, cs);
    SoundRowsStaySound(job, c);
    SwitchIsRules(job, c);
    hide IsValid, IsConsistent, IsPermitted, Apply, Effect, Replay;
  }

  // ---------------------------------------------------------------------------------------------
  // The row is the summary of its log
  // ---------------------------------------------------------------------------------------------

  datatype Kind = ProcessingClaims | CompensationClaims | OutputReports

  predicate IsKind(a: Action, k: Kind) {
    match k
    case ProcessingClaims => a.ClaimProcessing?
    case CompensationClaims => a.ClaimCompensation?
    case OutputReports => a.RecordOutputReady?
  }

  function Times(log: seq<Command>, k: Kind): seq<int> {
    if log == [] then []
    else
      var c := log[|log| - 1];
      Times(log[..|log| - 1], k) + (if IsKind(c.action, k) then [c.atMs] else [])
  }

  function ErrorCodes(log: seq<Command>): seq<string> {
    if log == [] then []
    else
      var code := ErrorCodeOf(log[|log| - 1].action);
      ErrorCodes(log[..|log| - 1]) + (if code.Some? then [code.value] else [])
  }

  function Dimensions(log: seq<Command>): seq<(int, int)> {
    if log == [] then []
    else
      var a := log[|log| - 1].action;
      Dimensions(log[..|log| - 1]) + (if a.RecordOutputReady? then [(a.sourceWidth, a.sourceHeight)] else [])
  }

  function Claims(log: seq<Command>): seq<Lease> {
    if log == [] then []
    else
      var c := log[|log| - 1];
      Claims(log[..|log| - 1]) + (if IsClaim(c.action) then [LeaseOf(c)] else [])
  }

  function First<T>(s: seq<T>): Option<T> {
    if s == [] then None else Some(s[0])
  }

  function Last<T>(s: seq<T>): Option<T> {
    if s == [] then None else Some(s[|s| - 1])
  }

  /** Counters, clocks, dimensions, error code and lease, read off the log of a row created at `atMs`. */
  predicate SummarizesLog(job: ImageJob, log: seq<Command>, atMs: int) {
    && job.version == |log|
    && job.createdAtMs == atMs
    && job.updatedAtMs == (if log == [] then atMs else log[|log| - 1].atMs)
    && job.attemptCount == |Times(log, ProcessingClaims)|
    && job.firstAttemptAtMs == First(Times(log, ProcessingClaims))
    && job.lastAttemptAtMs == Last(Times(log, ProcessingClaims))
    && job.compensationAttemptCount == |Times(log, CompensationClaims)|
    && job.lastCompensationAttemptAtMs == Last(Times(log, CompensationClaims))
    && job.outputReadyAtMs == Last(Times(log, OutputReports))
    && job.resultSourceWidth == (if Dimensions(log) == [] then None else Some(Last(Dimensions(log)).value.0))
    && job.resultSourceHeight == (if Dimensions(log) == [] then None else Some(Last(Dimensions(log)).value.1))
    && job.lastErrorCode == Last(ErrorCodes(log))
    && (job.lease.Some? ==> job.lease == Last(Claims(log)))
  }

  lemma SummaryStep(job: ImageJob, log: seq<Command>, atMs: int, c: Command)
    requires SummarizesLog(job, log, atMs)
    ensures SummarizesLog(Effect(job, c), log + [c], atMs)
  {
    var longer := log + [c];
    assert longer[..|longer| - 1] == log;
    hide Target, RequestedTime, PublicationShape, CompensationShape, HoldsLease, InCompensation;
  }

  lemma SummaryOfStep(row: ImageJob, log: seq<Command>, atMs: int, c: Command)
    requires SummarizesLog(row, log, atMs) && IsSound(row)
    ensures Step(row, c).request == row.request
    ensures SummarizesLog(Step(row, c), log + (if Transition(row, c).Ok? then [c] else []), atMs)
  {
    if Transition(row, c).Ok? {
      AcceptedIsSoundStep(row, c);
      SummaryStep(row, log, atMs, c);
      assert Effect(row, c).request == row.request;
    }
    assert log + [] == log;
    hide IsValid, IsConsistent, Transition, IsPermitted, SummarizesLog, Effect;
  }

  /** Over every history a row is exactly the summary of the commands it accepted. */
  lemma {:induction false} RowSummarizesLog(input: NewImageJob, atMs: int, cs: seq<Command>)
    requires CreateImageJob(input, atMs).Ok?
    ensures var job := CreateImageJob(input, atMs).value;
            Replay(job, cs).request == input && SummarizesLog(Replay(job, cs), Log(job, cs), atMs)
  {
    var job := CreateImageJob(input, atMs).value;
    CreatedJobIsSound(input, atMs);
    assert SummarizesLog(job, [], atMs);
    hide IsValid, IsConsistent, Transition, IsPermitted, SummarizesLog, Effect, CreateImageJob, IsSound;
    if cs != [] {
      var front, c := cs[..|cs| - 1], cs[|cs| - 1];
      RowSummarizesLog(input, atMs, front);
      ReplayStaysSound(job, front);
      SummaryOfStep(Replay(job, front), Log(job, front), atMs, c);
    }
  }

  /** The i-th accepted command names version i, and time never goes back. */
  predicate IsOrdered(log: seq<Command>, atMs: int) {
    && (forall i | 0 <= i < |log| :: log[i].expectedVersion == i && atMs <= log[i].atMs)
    && (forall i, j | 0 <= i < j < |log| :: log[i].atMs <= log[j].atMs)
  }

  lemma LongerLogIsOrdered(log: seq<Command>, atMs: int, c: Command)
    requires IsOrdered(log, atMs) && c.expectedVersion == |log|
    requires (if log == [] then atMs else log[|log| - 1].atMs) <= c.atMs
    ensures IsOrdered(log + [c], atMs)
  {
  }

  /** Successful commands form one total order. */
  lemma {:induction false} LogIsOrdered(input: NewImageJob, atMs: int, cs: seq<Command>)
    requires CreateImageJob(input, atMs).Ok?
    ensures IsOrdered(Log(CreateImageJob(input, atMs).value, cs), atMs)
  {
    var job := CreateImageJob(input, atMs).value;
    CreatedJobIsSound(input, atMs);
    hide IsSound, Transition, IsOrdered, CreateImageJob, Replay;
    if cs != [] {
      var front, c := cs[..|cs| - 1], cs[|cs| - 1];
      LogIsOrdered(input, atMs, front);
      RowSummarizesLog(input, atMs, front);
      ReplayStaysSound(job, front);
      var row, log := Replay(job, front), Log(job, front);
      if Transition(row, c).Ok? {
        AcceptedFollowsLog(row, log, atMs, c);
        LongerLogIsOrdered(log, atMs, c);
      }
    }
  }

  lemma AcceptedFollowsLog(row: ImageJob, log: seq<Command>, atMs: int, c: Command)
    requires IsSound(row) && SummarizesLog(row, log, atMs) && Transition(row, c).Ok?
    ensures c.expectedVersion == |log|
    ensures (if log == [] then atMs else log[|log| - 1].atMs) <= c.atMs
  {
    AcceptedIsSoundStep(row, c);
    hide IsSound, Transition, IsPermitted, Effect, Times, Dimensions, ErrorCodes, Claims;
  }

  // ---------------------------------------------------------------------------------------------
  // Regions of the state graph
  // ---------------------------------------------------------------------------------------------

  /**
   Over every history: the request never changes, versions and clocks only grow, `ready` and `compensated`
   absorb every command, and no row leaves the compensation states once it is in them.
   */
  lemma {:induction false} HistoriesMoveForward(job: ImageJob, cs: seq<Command>)
    requires IsSound(job)
    ensures IsLater(job, Replay(job, cs))
    ensures IsFinal(job.state) ==> Replay(job, cs) == job
    ensures InCompensation(job.state) ==> InCompensation(Replay(job, cs).state)
  {
    if cs != [] {
      var front, c := cs[..|cs| - 1], cs[|cs| - 1];
      HistoriesMoveForward(job, front);
      ReplayStaysSound(job, front);
      var row := Replay(job, front);
      if Transition(row, c).Ok? {
        AcceptedIsSoundStep(row, c);
        LaterIsTransitive(job, row, Transition(row, c).value);
      }
      hide IsValid, IsConsistent, Transition, IsPermitted, Effect, IsSoundStep;
    }
  }

  // ---------------------------------------------------------------------------------------------
  // Termination
  // ---------------------------------------------------------------------------------------------

  /** How many more commands the row can accept without going round in circles. */
  function Budget(job: ImageJob): int {
    var attempts := 4 * (job.request.maxAttempts - job.attemptCount);
    var compensations := 2 * (job.request.maxCompensationAttempts - job.compensationAttemptCount);
    match job.state
    case Requested => attempts + compensations + 3
    case Queued => attempts + compensations + 2
    case Processing => attempts + compensations + 5
    case OutputReady => attempts + compensations + 4
    case Publishing => attempts + compensations + 3
    case Failed => compensations + 2
    case CompensationRequired => compensations + 1
    case Compensating => compensations + 2
    case _ => 0
  }

  /** The two interventions that only repeat themselves or undo a manual review. */
  predicate IsReissue(job: ImageJob, a: Action) {
    || (a.RequireCompensation? && (job.state.CompensationRequired? || job.state.ManualReview?))
    || (a.MarkManualReview? && job.state.ManualReview?)
  }

  lemma BudgetIsSpent(job: ImageJob, c: Command, next: ImageJob)
    requires IsSoundStep(job, c, next) && !IsReissue(job, c.action)
    ensures 0 <= Budget(next) < Budget(job)
  {
    hide IsRequest, IsErrorCode, IsLease;
  }

  /** No accepted command of the history is a reissue. */
  predicate HasNoReissue(job: ImageJob, cs: seq<Command>) {
    cs != [] ==>
      var front, c := cs[..|cs| - 1], cs[|cs| - 1];
      && HasNoReissue(job, front)
      && (Transition(Replay(job, front), c).Ok? ==> !IsReissue(Replay(job, front), c.action))
  }

  lemma {:induction false} BudgetBoundsHistory(job: ImageJob, cs: seq<Command>)
    requires IsSound(job)
    requires HasNoReissue(job, cs)
    ensures Replay(job, cs).version + Budget(Replay(job, cs)) <= job.version + Budget(job)
  {
    if cs != [] {
      var front, c := cs[..|cs| - 1], cs[|cs| - 1];
      BudgetBoundsHistory(job, front);
      ReplayStaysSound(job, front);
      var row := Replay(job, front);
      if Transition(row, c).Ok? {
        AcceptedIsSoundStep(row, c);
        BudgetIsSpent(row, c, Transition(row, c).value);
        assert Transition(row, c).value.version == row.version + 1;
      }
      hide IsValid, IsConsistent, Transition, IsPermitted, Effect, Budget;
    }
  }

  /** A created row accepts a bounded number of commands, reissues aside. */
  lemma HistoriesTerminate(input: NewImageJob, atMs: int, cs: seq<Command>)
    requires CreateImageJob(input, atMs).Ok?
    requires HasNoReissue(CreateImageJob(input, atMs).value, cs)
    ensures |Log(CreateImageJob(input, atMs).value, cs)|
            <= 4 * input.maxAttempts + 2 * input.maxCompensationAttempts + 3
  {
    var job := CreateImageJob(input, atMs).value;
    CreatedJobIsSound(input, atMs);
    BudgetBoundsHistory(job, cs);
    ReplayStaysSound(job, cs);
    var row := Replay(job, cs);
    assert 0 <= Budget(row);
  }
}
