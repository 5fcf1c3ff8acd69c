/**
 Runs that reach the edge of the protocol's promises.

 Each lemma builds a run and so shows that a condition of the theorems is needed:
 without it the stronger promise is false of the code.
 */
module ProtocolLimits {
  import opened Contracts
  import opened Deployments
  import opened Reconcile
  import opened Protocol
  import opened ProtocolFrames
  import opened ProtocolClaims
  import opened ProtocolRuns
  import opened ProtocolScenes

  // ---------------------------------------------------------------- work accepted without a build to poll

  /** The answer gives the row a handle to poll by. */
  predicate NamesRun(answer: AdapterResult<ProviderRef>) {
    answer.Ok? && answer.value.resourceType == DeploymentRef
  }

  /** The row has no build to poll, and holds a handle only if these answers name one. */
  predicate Unpollable(row: Row, answer: AdapterResult<ProviderRef>) {
    !RowInFlight(row) && (row.handle.Some? ==> NamesRun(answer))
  }

  /** What is read back while the work goes on. */
  function Unfinished(answer: AdapterResult<ProviderRef>, build: Option<string>): ExecutionResult {
    match answer
    case Err(status, reason) => ExecutionResult(status, None, Some("app"), None, build, Some(reason))
    case Ok(status, ref) => ReadBackResult(STILL_RUNNING, status, "app", ref, build)
  }

  /** Accepted work is marked when it names a run, and its state is then read. */
  lemma CallAccepted(states: seq<World>, events: seq<Event>, answer: AdapterResult<ProviderRef>,
                     build: Option<string>, calls: nat)
    returns (states': seq<World>, events': seq<Event>)
    requires Run(states, events) && Holds(Last(states), Deploying("app", build), calls, 1)
    requires answer.Ok? && !Addressing(answer) && AllAnswer(events, answer)
    requires Last(states).rows[DEPLOYMENT].handle.Some? ==> NamesRun(answer)
    ensures Run(states', events')
    ensures Holds(Last(states'), Reading(answer.status, "app", answer.value, build), calls + 1, 1)
    ensures AllAnswer(events', answer) && Unpollable(Last(states').rows[DEPLOYMENT], answer)
    ensures SameAround(Last(states), Last(states'))
    ensures Last(states').ledger.heard == Hears(Last(states).ledger.heard, DEPLOYMENT, ActionSays(answer))
    ensures Unbroken(events) ==> Unbroken(events')
  {
    states', events' := Extend(states, events, Act(ActionAnswer(answer)));
    if NamesRun(answer) {
      states', events' := MarkAccepted(states', events', answer, build, calls + 1);
    }
  }

  lemma MarkAccepted(states: seq<World>, events: seq<Event>, answer: AdapterResult<ProviderRef>,
                     build: Option<string>, calls: nat)
    returns (states': seq<World>, events': seq<Event>)
    requires Run(states, events)
    requires answer.Ok? && !Addressing(answer) && NamesRun(answer) && AllAnswer(events, answer)
    requires Holds(Last(states), Marking(answer.status, "app", answer.value, build), calls, 1)
    ensures Run(states', events')
    ensures Holds(Last(states'), Reading(answer.status, "app", answer.value, build), calls, 1)
    ensures AllAnswer(events', answer) && Unpollable(Last(states').rows[DEPLOYMENT], answer)
    ensures SameAround(Last(states), Last(states')) && Last(states').ledger.heard == Last(states).ledger.heard
    ensures Unbroken(events) ==> Unbroken(events')
  {
    states', events' := Extend(states, events, Act(MarkHandle));
  }

  /** A deploy answered like this is called, recorded as far as the executor goes, and found still running. */
  lemma CallUnaddressed(states: seq<World>, events: seq<Event>, answer: AdapterResult<ProviderRef>,
                        build: Option<string>, calls: nat)
    returns (states': seq<World>, events': seq<Event>)
    requires Run(states, events) && Holds(Last(states), Deploying("app", build), calls, 1)
    requires !Addressing(answer) && AllAnswer(events, answer)
    requires Last(states).rows[DEPLOYMENT].handle.Some? ==> NamesRun(answer)
    ensures Run(states', events') && Holds(Last(states'), Returned(true, Unfinished(answer, build)), calls + 1, 1)
    ensures AllAnswer(events', answer) && Unpollable(Last(states').rows[DEPLOYMENT], answer)
    ensures SameAround(Last(states), Last(states'))
    ensures Unbroken(events) ==> Unbroken(events')
  {
    if answer.Ok? {
      states', events' := CallAccepted(states, events, answer, build, calls);
      states', events' := Extend(states', events', Act(StateAnswer(answer.value, STILL_RUNNING)));
    } else {
      states', events' := Extend(states, events, Act(ActionAnswer(answer)));
    }
  }

  lemma DeferUnaddressed(states: seq<World>, events: seq<Event>, answer: AdapterResult<ProviderRef>,
                         build: Option<string>, calls: nat)
    returns (states': seq<World>, events': seq<Event>)
    requires Run(states, events) && Holds(Last(states), Returned(true, Unfinished(answer, build)), calls, 1)
    requires !Addressing(answer) && AllAnswer(events, answer) && Unpollable(Last(states).rows[DEPLOYMENT], answer)
    requires Last(states).now < Last(states).cfg.pollCeilingMs
    ensures Run(states', events') && Waits(Last(states'), Last(states').cfg.pollBackoffMs, calls, 1)
    ensures Last(states').pc == Mirroring(0, Applying(true, HandlerOutcome(Unfinished(answer, build))))
    ensures AllAnswer(events', answer) && Last(states').rows == Last(states).rows
    ensures SameAround(Last(states), Last(states'))
    ensures Unbroken(events) ==> Unbroken(events')
  {
    states', events' := Extend(states, events, Settled(Decide));
    assert Last(states').pc.stage.write.DeferWrite?;
    states', events' := Extend(states', events', Settled(WriteQueue));
  }

  /** The row mirrors work still going on; if that would give the row a build to poll, the worker dies first. */
  lemma MirrorUnaddressed(states: seq<World>, events: seq<Event>, answer: AdapterResult<ProviderRef>,
                          build: Option<string>, calls: nat)
    returns (states': seq<World>, events': seq<Event>)
    requires Run(states, events) && Waits(Last(states), Last(states).cfg.pollBackoffMs, calls, 1)
    requires Last(states).pc == Mirroring(0, Applying(true, HandlerOutcome(Unfinished(answer, build))))
    requires !Addressing(answer) && AllAnswer(events, answer) && Unpollable(Last(states).rows[DEPLOYMENT], answer)
    ensures Run(states', events') && Waits(Last(states'), Last(states').cfg.pollBackoffMs, calls, 1)
    ensures Last(states').pc.Idle?
    ensures AllAnswer(events', answer) && Unpollable(Last(states').rows[DEPLOYMENT], answer)
    ensures SameAround(Last(states), Last(states'))
    ensures Unbroken(events) && !NamesRun(answer) ==> Unbroken(events')
  {
    if NamesRun(answer) {
      states', events' := Extend(states, events, Env(Crash));
    } else {
      states', events' := Extend(states, events, Settled(WriteRow));
      MirroredUnpollable(Last(states), answer, build);
    }
  }

  lemma MirroredUnpollable(w: World, answer: AdapterResult<ProviderRef>, build: Option<string>)
    requires |w.jobs| == 1 && IsTheJob(w.jobs[0], 1) && w.rows.Keys == {DEPLOYMENT} && IsTheRow(w.rows[DEPLOYMENT])
    requires w.pc == Mirroring(0, Applying(true, HandlerOutcome(Unfinished(answer, build))))
    requires !Addressing(answer) && !NamesRun(answer) && Unpollable(w.rows[DEPLOYMENT], answer)
    ensures OnWriteRow(w).rows.Keys == {DEPLOYMENT} && IsTheRow(OnWriteRow(w).rows[DEPLOYMENT])
    ensures Unpollable(OnWriteRow(w).rows[DEPLOYMENT], answer) && OnWriteRow(w).pc.Idle?
    ensures SameAround(w, OnWriteRow(w)) && OnWriteRow(w).jobs == w.jobs && OnWriteRow(w).slots == w.slots
    ensures OnWriteRow(w).ledger.calls == w.ledger.calls
  {
    WriteRowFrame(w);
  }

  /** One backoff later the next claim finds no build to poll and starts over. */
  lemma StartOver(states: seq<World>, events: seq<Event>, answer: AdapterResult<ProviderRef>, serverless: bool,
                  calls: nat)
    returns (states': seq<World>, events': seq<Event>)
    requires Run(states, events) && Waits(Last(states), Last(states).cfg.pollBackoffMs, calls, 1)
    requires Last(states).pc.Idle?
    requires AllAnswer(events, answer) && Unpollable(Last(states).rows[DEPLOYMENT], answer)
    ensures Run(states', events') && Holds(Last(states'), Deploying("app", BuildFor(serverless)), calls, 1)
    ensures AllAnswer(events', answer) && (Last(states').rows[DEPLOYMENT].handle.Some? ==> NamesRun(answer))
    ensures SameAround(Last(states).(now := Last(states).now + Last(states).cfg.pollBackoffMs), Last(states'))
    ensures Unbroken(events) ==> Unbroken(events')
  {
    states', events' := ClaimAfter(states, events, Last(states).cfg.pollBackoffMs, calls, 1);
    states', events' := Extend(states', events', Prepare(Start(serverless)));
    states', events' := BuildFirst(states', events', serverless, calls, 1);
  }

  lemma {:induction false} UnaddressedRounds(cfg: Config, answer: AdapterResult<ProviderRef>, serverless: bool, n: nat)
    returns (states: seq<World>, events: seq<Event>)
    requires !Addressing(answer) && (n > 0 ==> Intervals(n - 1, cfg.pollBackoffMs) < cfg.pollCeilingMs)
    ensures Run(states, events) && Last(states).cfg == cfg && Last(states).now == Intervals(n, cfg.pollBackoffMs)
    ensures Holds(Last(states), Deploying("app", BuildFor(serverless)), n, 1) && Last(states).ledger.early == multiset{}
    ensures AllAnswer(events, answer) && (Last(states).rows[DEPLOYMENT].handle.Some? ==> NamesRun(answer))
    ensures !NamesRun(answer) ==> Unbroken(events)
  {
    if n == 0 {
      states, events := Begin(cfg, 1, serverless);
      states, events := BuildFirst(states, events, serverless, 0, 1);
    } else {
      states, events := UnaddressedRounds(cfg, answer, serverless, n - 1);
      states, events := CallUnaddressed(states, events, answer, BuildFor(serverless), n - 1);
      states, events := DeferUnaddressed(states, events, answer, BuildFor(serverless), n);
      states, events := MirrorUnaddressed(states, events, answer, BuildFor(serverless), n);
      states, events := StartOver(states, events, answer, serverless, n);
    }
  }

  /** A run on a budget of one attempt, with no row settled early, against an engine that only gives this answer. */
  ghost predicate AnswersOnly(states: seq<World>, events: seq<Event>, cfg: Config, answer: AdapterResult<ProviderRef>) {
    && Run(states, events) && Last(states).cfg == cfg && AllAnswer(events, answer)
    && (!NamesRun(answer) ==> Unbroken(events))
    && |Last(states).jobs| == 1 && IsDeployment(Last(states).jobs[0]) && Last(states).jobs[0].maxAttempts == 1
    && Last(states).ledger.early == multiset{}
  }

  /** A call after as many rounds as fit below the ceiling. */
  lemma CallAfterRounds(cfg: Config, answer: AdapterResult<ProviderRef>, serverless: bool, n: nat)
    requires !Addressing(answer) && (n > 0 ==> Intervals(n - 1, cfg.pollBackoffMs) < cfg.pollCeilingMs)
    ensures exists states, events :: AnswersOnly(states, events, cfg, answer) && Last(states).ledger.calls[0] == n + 1
  {
    var states, events := UnaddressedRounds(cfg, answer, serverless, n);
    states, events := CallUnaddressed(states, events, answer, BuildFor(serverless), n);
    assert AnswersOnly(states, events, cfg, answer);
  }

  /**
   Every answer that does not address the work lets the engine be asked to deploy at
   every poll, until the ceiling: with a budget of one attempt and no row settled early,
   the calls reach the bound on claims exactly. The worker dies on the way only where
   the answer named a run, so that the row would hold it once mirrored.
   */
  lemma CallsCanReachTheClaimBound(cfg: Config, answer: AdapterResult<ProviderRef>, serverless: bool)
    requires cfg.pollBackoffMs > 0 && cfg.pollCeilingMs > 0 && !Addressing(answer)
    ensures exists states, events ::
              && AnswersOnly(states, events, cfg, answer)
              && Last(states).ledger.calls[0] == 1 + CeilDiv(cfg.pollCeilingMs, cfg.pollBackoffMs)
  {
    var n := CeilDiv(cfg.pollCeilingMs, cfg.pollBackoffMs);
    LastIntervalStartsInWindow(cfg.pollCeilingMs, cfg.pollBackoffMs);
    IntervalsIsProduct(n - 1, cfg.pollBackoffMs);
    CallAfterRounds(cfg, answer, serverless, n);
  }

  lemma LastIntervalStartsInWindow(window: nat, step: nat)
    requires step > 0 && window > 0
    ensures CeilDiv(window, step) > 0 && (CeilDiv(window, step) - 1) * step < window
  {
    var q := CeilDiv(window, step);
    assert q * step <= window + step - 1;
    assert (q - 1) * step == q * step - step;
  }

  // ---------------------------------------------------------------- a row settled under its job

  /** What reading this state back reports of work accepted like this. */
  function ReadBack(state: AdapterResult<DeploymentState>, answer: AdapterResult<ProviderRef>): ExecutionResult
    requires answer.Ok?
  {
    ReadBackResult(state, answer.status, "app", answer.value, None)
  }

  /** The build is still running, so the job is deferred. */
  lemma DeferPollable(states: seq<World>, events: seq<Event>, answer: AdapterResult<ProviderRef>)
    returns (states': seq<World>, events': seq<Event>)
    requires Run(states, events) && AllAnswer(events, answer) && Starts(answer)
    requires Holds(Last(states), Reading(answer.status, "app", answer.value, None), 1, 1)
    requires Last(states).now < Last(states).cfg.pollCeilingMs
    ensures Run(states', events') && AllAnswer(events', answer)
    ensures Waits(Last(states'), Last(states').cfg.pollBackoffMs, 1, 1)
    ensures Last(states').pc == Mirroring(0, Applying(true, Ok(Running, ReadBack(STILL_RUNNING, answer))))
    ensures SameAround(Last(states), Last(states')) && Last(states').rows == Last(states).rows
  {
    states', events' := Extend(states, events, Act(StateAnswer(answer.value, STILL_RUNNING)));
    assert Holds(Last(states'), Returned(true, ReadBack(STILL_RUNNING, answer)), 1, 1);
    states', events' := DeferReturned(states', events', answer);
  }

  lemma DeferReturned(states: seq<World>, events: seq<Event>, answer: AdapterResult<ProviderRef>)
    returns (states': seq<World>, events': seq<Event>)
    requires Run(states, events) && AllAnswer(events, answer) && Starts(answer)
    requires Holds(Last(states), Returned(true, ReadBack(STILL_RUNNING, answer)), 1, 1)
    requires Last(states).now < Last(states).cfg.pollCeilingMs
    ensures Run(states', events') && AllAnswer(events', answer)
    ensures Waits(Last(states'), Last(states').cfg.pollBackoffMs, 1, 1)
    ensures Last(states').pc == Mirroring(0, Applying(true, Ok(Running, ReadBack(STILL_RUNNING, answer))))
    ensures SameAround(Last(states), Last(states')) && Last(states').rows == Last(states).rows
  {
    states', events' := Extend(states, events, Settled(Decide));
    assert Last(states').pc.stage.write.DeferWrite?
      && Last(states').pc.stage.result == Ok(Running, ReadBack(STILL_RUNNING, answer));
    states', events' := Extend(states', events', Settled(WriteQueue));
  }

  lemma MirrorPollable(states: seq<World>, events: seq<Event>, answer: AdapterResult<ProviderRef>)
    returns (states': seq<World>, events': seq<Event>)
    requires Run(states, events) && AllAnswer(events, answer) && Starts(answer)
    requires Waits(Last(states), Last(states).cfg.pollBackoffMs, 1, 1)
    requires Last(states).pc == Mirroring(0, Applying(true, Ok(Running, ReadBack(STILL_RUNNING, answer))))
    ensures Run(states', events') && AllAnswer(events', answer)
    ensures Waits(Last(states'), Last(states').cfg.pollBackoffMs, 1, 1)
    ensures Last(states').pc.Idle? && SameAround(Last(states), Last(states'))
    ensures InProgress(Last(states').rows[DEPLOYMENT])
  {
    WriteRowFrame(Last(states));
    states', events' := Extend(states, events, Settled(WriteRow));
  }

  lemma ListsTheRow(w: World, row: Stranded)
    requires w.rows.Keys == {row.key} && row.row == w.rows[row.key]
    requires IsStranded(row.row, w.now, w.cfg.staleAfterMs) && w.cfg.sweepLimit > 0
    ensures ListsStranded(w, [row])
  {
    assert [row][0] == row;
  }

  /** The worker is idle, and the sweep has settled the row of a job that is not finished: promoted and counted. */
  predicate SettledUnder(w: World, calls: nat, budget: int) {
    && Scene(w, calls, budget) && w.pc.Idle? && !TerminalJob(w.jobs[0].state)
    && w.rows[DEPLOYMENT].status == Succeeded
    && w.usage == multiset{DEPLOYMENT} && w.ledger.early[DEPLOYMENT] == 1
  }

  /** The sweep finds the row stale and, on the engine's word, settles it as succeeded. */
  lemma SweepUnderJob(states: seq<World>, events: seq<Event>, answer: AdapterResult<ProviderRef>, calls: nat,
                      budget: int)
    returns (states': seq<World>, events': seq<Event>)
    requires Run(states, events) && AllAnswer(events, answer) && Starts(answer) && Scene(Last(states), calls, budget)
    requires Last(states).pc.Idle?
    requires !TerminalJob(Last(states).jobs[0].state)
    requires InProgress(Last(states).rows[DEPLOYMENT])
    requires Last(states).cfg.sweepLimit > 0 && Last(states).cfg.staleAfterMs < Last(states).now
    requires Last(states).usage == multiset{} && Last(states).ledger.early[DEPLOYMENT] == 0
    ensures Run(states', events') && AllAnswer(events', answer) && SettledUnder(Last(states'), calls, budget)
    ensures Last(states').cfg == Last(states).cfg && Last(states').now == Last(states).now
    ensures Last(states').jobs == Last(states).jobs
  {
    var row := Stranded(DEPLOYMENT, Last(states).rows[DEPLOYMENT]);
    ListsTheRow(Last(states), row);
    states', events' := Extend(states, events, Swept(SweepStart([row])));
    states', events' := Extend(states', events', Swept(SweepReach));
    assert Last(states').pc == Sweeping(Asking(row), [], Last(states).now);
    states', events' := Extend(states', events', Swept(SweepAnswer(SweepRef(row.row).value, SETTLED)));
    states', events' := SettleUnderJob(states', events', row, answer, calls, budget);
  }

  lemma SettleUnderJob(states: seq<World>, events: seq<Event>, row: Stranded,
                       answer: AdapterResult<ProviderRef>, calls: nat, budget: int)
    returns (states': seq<World>, events': seq<Event>)
    requires Run(states, events) && AllAnswer(events, answer) && Starts(answer) && Scene(Last(states), calls, budget)
    requires !TerminalJob(Last(states).jobs[0].state)
    requires Last(states).pc == Sweeping(Writing(row, Settle(Succeeded, None, None)), [], Last(states).now)
    requires row.key == DEPLOYMENT && row.row == Last(states).rows[DEPLOYMENT]
    requires Last(states).usage == multiset{} && Last(states).ledger.early[DEPLOYMENT] == 0
    ensures Run(states', events') && AllAnswer(events', answer) && SettledUnder(Last(states'), calls, budget)
    ensures Last(states').cfg == Last(states).cfg && Last(states').now == Last(states).now
    ensures Last(states').jobs == Last(states).jobs
  {
    assert !JobFinished(Last(states), DEPLOYMENT);
    states', events' := Extend(states, events, Swept(SweepWrite));
    states', events' := Extend(states', events', Swept(SweepPromote));
    states', events' := Extend(states', events', Swept(SweepMeter));
    states', events' := Extend(states', events', Swept(SweepEnd));
  }

  /** The job's next claim finds nothing in flight and deploys again. */
  lemma DeployAgain(states: seq<World>, events: seq<Event>, answer: AdapterResult<ProviderRef>, ms: nat, budget: int)
    returns (states': seq<World>, events': seq<Event>)
    requires Run(states, events) && AllAnswer(events, answer) && Starts(answer) && Waits(Last(states), ms, 1, budget)
    requires Last(states).pc.Idle?
    requires Last(states).rows[DEPLOYMENT].status == Succeeded
    ensures Run(states', events') && AllAnswer(events', answer)
    ensures Holds(Last(states'), Reading(answer.status, "app", answer.value, None), 2, budget)
    ensures SameAround(Last(states).(now := Last(states).now + ms), Last(states'))
  {
    states', events' := ClaimAfter(states, events, ms, 1, budget);
    states', events' := Extend(states', events', Prepare(Start(false)));
    assert Holds(Last(states'), Deploying("app", None), 1, budget);
    states', events' := DeployAndMark(states', events', answer, 1, budget);
  }

  /** The second build succeeds, and its job with it. */
  lemma CompleteAgain(states: seq<World>, events: seq<Event>, answer: AdapterResult<ProviderRef>, budget: int)
    returns (states': seq<World>, events': seq<Event>)
    requires Run(states, events) && AllAnswer(events, answer) && Starts(answer)
    requires Holds(Last(states), Reading(answer.status, "app", answer.value, None), 2, budget)
    ensures Run(states', events') && AllAnswer(events', answer) && Scene(Last(states'), 2, budget)
    ensures Last(states').pc == Mirroring(0, Applying(false, Ok(Succeeded, ReadBack(SETTLED, answer))))
    ensures SameAround(Last(states), Last(states'))
  {
    states', events' := Extend(states, events, Act(StateAnswer(answer.value, SETTLED)));
    assert Holds(Last(states'), Returned(true, ReadBack(SETTLED, answer)), 2, budget);
    states', events' := Extend(states', events', Settled(Decide));
    assert Last(states').pc.stage.write.CompleteWrite?
      && Last(states').pc.stage.result == Ok(Succeeded, ReadBack(SETTLED, answer));
    states', events' := Extend(states', events', Settled(WriteQueue));
  }

  /** And is mirrored, promoted and counted like the first. */
  lemma CountAgain(states: seq<World>, events: seq<Event>, answer: AdapterResult<ProviderRef>, budget: int)
    returns (states': seq<World>, events': seq<Event>)
    requires Run(states, events) && AllAnswer(events, answer) && Starts(answer) && Scene(Last(states), 2, budget)
    requires Last(states).pc == Mirroring(0, Applying(false, Ok(Succeeded, ReadBack(SETTLED, answer))))
    requires Last(states).usage == multiset{DEPLOYMENT} && Last(states).ledger.early[DEPLOYMENT] == 1
    ensures Run(states', events') && AllAnswer(events', answer) && Scene(Last(states'), 2, budget)
    ensures Last(states').cfg == Last(states).cfg
    ensures Last(states').usage[DEPLOYMENT] == 2 && Last(states').ledger.early[DEPLOYMENT] == 1
  {
    states', events' := Extend(states, events, Settled(WriteRow));
    assert Last(states').pc == Mirroring(0, Promoting);
    states', events' := Extend(states', events', Settled(Promote));
    states', events' := Extend(states', events', Settled(Meter));
  }

  /** One deployment has cost two calls and two units of usage, and its row was settled under its job once. */
  ghost predicate DeployedTwice(states: seq<World>, events: seq<Event>, cfg: Config, answer: AdapterResult<ProviderRef>,
                                budget: int) {
    && Run(states, events) && AllAnswer(events, answer) && Last(states).cfg == cfg
    && |Last(states).jobs| == 1 && IsDeployment(Last(states).jobs[0]) && Last(states).jobs[0].maxAttempts == budget
    && RowKey(Last(states).jobs[0]) == DEPLOYMENT && Last(states).ledger.early[DEPLOYMENT] == 1
    && Last(states).ledger.calls[0] == 2 && Last(states).usage[DEPLOYMENT] == 2
  }

  /**
   A redelivered job does deploy again over a settled row. The sweep settles a row
   whose job is still being polled; the job's next claim finds nothing in flight and
   runs the ordinary path. With an engine that addresses all its work, one attempt in
   the budget has cost two deploys, and one deployment two units of usage: both bounds
   are met exactly.
   */
  lemma SettledRowIsDeployedAgain(cfg: Config, answer: AdapterResult<ProviderRef>)
    requires cfg.pollCeilingMs > 0 && cfg.sweepLimit > 0 && Starts(answer)
    ensures exists states, events :: DeployedTwice(states, events, cfg, answer, 1)
  {
    var states, events := SettleTheFirst(cfg, answer);
    states, events := DeployAgain(states, events, answer, cfg.pollBackoffMs, 1);
    states, events := CompleteAgain(states, events, answer, 1);
    states, events := CountAgain(states, events, answer, 1);
    assert DeployedTwice(states, events, cfg, answer, 1);
  }

  lemma SettleTheFirst(cfg: Config, answer: AdapterResult<ProviderRef>) returns (states: seq<World>, events: seq<Event>)
    requires cfg.pollCeilingMs > 0 && cfg.sweepLimit > 0 && Starts(answer)
    ensures Run(states, events) && AllAnswer(events, answer) && SettledUnder(Last(states), 1, 1)
    ensures Waits(Last(states), cfg.pollBackoffMs, 1, 1) && Last(states).cfg == cfg
  {
    states, events := Begin(cfg, 1, false);
    states, events := DeployAndMark(states, events, answer, 0, 1);
    states, events := DeferPollable(states, events, answer);
    states, events := MirrorPollable(states, events, answer);
    states, events := Extend(states, events, Env(Advance(cfg.staleAfterMs + 1)));
    states, events := SweepUnderJob(states, events, answer, 1, 1);
  }

  /** With no poll at all it takes a second attempt: the worker dies, the sweep settles the row, the claim is reaped. */
  lemma SettledRowIsBilledAgain(cfg: Config, answer: AdapterResult<ProviderRef>)
    requires cfg.sweepLimit > 0 && Starts(answer)
    ensures exists states, events :: DeployedTwice(states, events, cfg, answer, 2)
  {
    var states, events := SettleTheAbandoned(cfg, answer);
    states, events := DeployAgain(states, events, answer, 0, 2);
    states, events := CompleteAgain(states, events, answer, 2);
    states, events := CountAgain(states, events, answer, 2);
    assert DeployedTwice(states, events, cfg, answer, 2);
  }

  lemma SettleTheAbandoned(cfg: Config, answer: AdapterResult<ProviderRef>)
    returns (states: seq<World>, events: seq<Event>)
    requires cfg.sweepLimit > 0 && Starts(answer)
    ensures Run(states, events) && AllAnswer(events, answer) && SettledUnder(Last(states), 1, 2)
    ensures Waits(Last(states), 0, 1, 2) && Last(states).cfg == cfg
  {
    states, events := Abandon(cfg, answer);
    states, events := Extend(states, events, Env(Advance(cfg.staleAfterMs + 1)));
    states, events := SweepUnderJob(states, events, answer, 1, 2);
    states, events := ReapAfter(states, events, cfg.leaseMs, 1, 2);
  }

  /** A build is in flight under its handle, and the worker that started it has died. */
  lemma Abandon(cfg: Config, answer: AdapterResult<ProviderRef>) returns (states: seq<World>, events: seq<Event>)
    requires Starts(answer)
    ensures Run(states, events) && AllAnswer(events, answer) && Scene(Last(states), 1, 2) && Last(states).pc.Idle?
    ensures var w := Last(states);
            && w.cfg == cfg && w.now == 0 && w.jobs[0].state == JobRunning && w.jobs[0].attempts == 1
            && w.jobs[0].leaseExpiresAt == Some(cfg.leaseMs) && w.jobs[0].deferredUntil.None?
            && InProgress(w.rows[DEPLOYMENT])
            && w.usage == multiset{} && w.ledger.early == multiset{} && w.ledger.heard == NOTHING_HEARD
  {
    states, events := Begin(cfg, 2, false);
    states, events := DeployAndMark(states, events, answer, 0, 2);
    states, events := Extend(states, events, Env(Crash));
  }
}
