/**
 Runs that show what a success, and a preview, can come to without the conditions the
 promises ask for.
 */
module ProtocolWitnesses {
  import opened Contracts
  import opened Queue
  import opened Deployments
  import opened Protocol
  import opened ProtocolSlots
  import opened ProtocolHistory
  import opened ProtocolRuns
  import opened ProtocolScenes
  import opened ProtocolLimits

  /** Nothing in the run said this of the deployment. */
  lemma Unsaid(states: seq<World>, events: seq<Event>, key: Key, said: Said)
    requires Run(states, events) && said != Silence && !InHeard(Last(states).ledger.heard, key, said)
    ensures !ToldBefore(states, events, |events|, key, said)
  {
    HeardExactly(states, events, |events|, key, said);
  }

  // ---------------------------------------------------------------- a success nobody read

  const REFUSED: AdapterResult<DeploymentState> := Err(Failed, "the engine could not be asked")

  function TakenAtItsWord(ref: ProviderRef, build: Option<string>): ExecutionResult {
    ReadBackResult(REFUSED, Succeeded, "app", ref, build)
  }

  /** The read-back is refused, so the accepted status stands and the claim completes. */
  lemma CompleteUnread(states: seq<World>, events: seq<Event>, ref: ProviderRef, build: Option<string>)
    returns (states': seq<World>, events': seq<Event>)
    requires Run(states, events) && Holds(Last(states), Reading(Succeeded, "app", ref, build), 1, 1)
    requires AllAnswer(events, Ok(Succeeded, ref))
    ensures Run(states', events') && AllAnswer(events', Ok(Succeeded, ref)) && Scene(Last(states'), 1, 1)
    ensures Last(states').pc == Mirroring(0, Applying(false, Ok(Succeeded, TakenAtItsWord(ref, build))))
    ensures Last(states').jobs[0].state == JobSucceeded && SameAround(Last(states), Last(states'))
    ensures Last(states').ledger.heard == Hears(Last(states).ledger.heard, DEPLOYMENT, Guess)
  {
    states', events' := Extend(states, events, Act(StateAnswer(ref, REFUSED)));
    assert Holds(Last(states'), Returned(true, TakenAtItsWord(ref, build)), 1, 1);
    states', events' := Extend(states', events', Settled(Decide));
    assert Last(states').pc.stage.write.CompleteWrite?;
    assert Last(states').pc.stage.result == Ok(Succeeded, TakenAtItsWord(ref, build));
    states', events' := Extend(states', events', Settled(WriteQueue));
  }

  lemma MirrorUnread(states: seq<World>, events: seq<Event>, ref: ProviderRef, build: Option<string>)
    returns (states': seq<World>, events': seq<Event>)
    requires Run(states, events) && AllAnswer(events, Ok(Succeeded, ref)) && Scene(Last(states), 1, 1)
    requires Last(states).pc == Mirroring(0, Applying(false, Ok(Succeeded, TakenAtItsWord(ref, build))))
    requires Last(states).live == map[] && Last(states).usage == multiset{}
    ensures Run(states', events') && AllAnswer(events', Ok(Succeeded, ref)) && Last(states').cfg == Last(states).cfg
    ensures Last(states').jobs == Last(states).jobs && Last(states').ledger.heard == Last(states).ledger.heard
    ensures DEPLOYMENT in Last(states').rows && Last(states').rows[DEPLOYMENT].status == Succeeded
    ensures Last(states').live == map[PROJECT := DEPLOYMENT] && Last(states').usage == multiset{DEPLOYMENT}
  {
    states', events' := Extend(states, events, Settled(WriteRow));
    assert Last(states').pc == Mirroring(0, Promoting);
    states', events' := Extend(states', events', Settled(Promote));
    states', events' := Extend(states', events', Settled(Meter));
  }

  /** A deployment completed, live and billed without its state ever having been read. */
  ghost predicate SucceededUnread(states: seq<World>, events: seq<Event>) {
    && Run(states, events)
    && |Last(states).jobs| == 1 && RowKey(Last(states).jobs[0]) == DEPLOYMENT
       && Last(states).jobs[0].state == JobSucceeded
    && DEPLOYMENT in Last(states).rows && Last(states).rows[DEPLOYMENT].status == Succeeded
    && Last(states).live == map[PROJECT := DEPLOYMENT] && Last(states).usage == multiset{DEPLOYMENT}
    && !WasRead(states, events, DEPLOYMENT)
  }

  /**
   An engine accepts the deploy as already succeeded, under whatever reference, as the
   function engine always does, and then cannot be asked. The job completes, the row
   says succeeded, the deployment goes live and is billed; no state was ever read.
   */
  lemma SuccessCanBeGuessed(cfg: Config, ref: ProviderRef, serverless: bool)
    ensures exists states, events ::
              && SucceededUnread(states, events)
              && Last(states).cfg == cfg && AllAnswer(events, Ok(Succeeded, ref))
  {
    var answer: AdapterResult<ProviderRef> := Ok(Succeeded, ref);
    var states, events := Begin(cfg, 1, serverless);
    states, events := BuildFirst(states, events, serverless, 0, 1);
    states, events := CallAccepted(states, events, answer, BuildFor(serverless), 0);
    states, events := CompleteUnread(states, events, ref, BuildFor(serverless));
    states, events := MirrorUnread(states, events, ref, BuildFor(serverless));
    Unsaid(states, events, DEPLOYMENT, ReadRun);
    Unsaid(states, events, DEPLOYMENT, ReadElsewhere);
    assert SucceededUnread(states, events);
  }

  /**
   A row can say so sooner: an acceptance as succeeded under the run's own handle is
   written with that handle, before the state is read.
   */
  lemma RowCanSucceedOnAcceptance(cfg: Config, id: string)
    ensures exists states, events ::
              && Run(states, events) && Last(states).cfg == cfg && AllAnswer(events, Ok(Succeeded, EngineRun(id)))
              && DEPLOYMENT in Last(states).rows && Last(states).rows[DEPLOYMENT].status == Succeeded
              && Last(states).ledger.heard.contradicted == {}
              && !WasRead(states, events, DEPLOYMENT)
  {
    var states, events := Begin(cfg, 1, false);
    states, events := Extend(states, events, Act(ActionAnswer(Ok(Succeeded, EngineRun(id)))));
    states, events := Extend(states, events, Act(MarkHandle));
    Unsaid(states, events, DEPLOYMENT, ReadRun);
    Unsaid(states, events, DEPLOYMENT, ReadElsewhere);
  }

  // ---------------------------------------------------------------- a refusal that says succeeded

  /** What an engine can refuse with the status succeeded. */
  datatype Refused = RefusedTarget | RefusedDeploy | RefusedPoll

  /** The handler reports the refusal, and the job has no attempt left. */
  ghost predicate Reports(w: World, reason: string) {
    && w.pc.Holding? && w.pc.job == 0 && w.pc.stage.Returned?
    && w.pc.stage.execution.status == Succeeded && w.pc.stage.execution.reason == Some(reason)
    && |w.jobs| == 1 && IsTheJob(w.jobs[0], w.jobs[0].attempts) && w.rows.Keys == {DEPLOYMENT}
    && w.ledger.heard == Hears(NOTHING_HEARD, DEPLOYMENT, Contradiction)
  }

  lemma RefuseTarget(cfg: Config, reason: string) returns (states: seq<World>, events: seq<Event>)
    ensures Run(states, events) && Last(states).cfg == cfg && Reports(Last(states), reason)
  {
    states, events := FirstClaim(cfg, 1);
    states, events := Extend(states, events, Prepare(Start(false)));
    assert Last(states).pc == Holding(0, Ensuring(false));
    states, events := Extend(states, events, Prepare(EnsureAnswer(Err(Succeeded, reason))));
  }

  lemma RefuseDeploy(cfg: Config, reason: string) returns (states: seq<World>, events: seq<Event>)
    ensures Run(states, events) && Last(states).cfg == cfg && Reports(Last(states), reason)
  {
    states, events := Begin(cfg, 1, false);
    states, events := Extend(states, events, Act(ActionAnswer(Err(Succeeded, reason))));
  }

  /** The worker dies with a build in flight; the next claim polls it. */
  lemma RefusePoll(cfg: Config, reason: string) returns (states: seq<World>, events: seq<Event>)
    ensures Run(states, events) && Last(states).cfg == cfg && Reports(Last(states), reason)
  {
    states, events := Abandon(cfg, Ok(Running, EngineRun("run")));
    states, events := ReapAfter(states, events, cfg.leaseMs, 1, 2);
    states, events := ClaimAfter(states, events, 0, 1, 2);
    states, events := Extend(states, events, Prepare(Start(false)));
    assert Last(states).pc.Holding? && Last(states).pc.stage.Polling?;
    states, events := Extend(states, events, Act(StateAnswer(StateRef(Last(states).pc.stage), Err(Succeeded, reason))));
  }

  lemma SettleRefusal(states: seq<World>, events: seq<Event>, reason: string)
    returns (states': seq<World>, events': seq<Event>)
    requires Run(states, events) && Reports(Last(states), reason)
    ensures Run(states', events') && Last(states').cfg == Last(states).cfg
    ensures |Last(states').jobs| == 1 && RowKey(Last(states').jobs[0]) == DEPLOYMENT
    ensures Last(states').jobs[0].state == JobFailed && Last(states').jobs[0].lastError == Some(reason)
    ensures DEPLOYMENT in Last(states').rows && Last(states').rows[DEPLOYMENT].status == Succeeded
    ensures Last(states').ledger.heard == Last(states).ledger.heard
  {
    states', events' := Extend(states, events, Settled(Decide));
    assert Last(states').pc.stage.write == FailWrite(reason) && Last(states').pc.stage.result == Err(Succeeded, reason);
    states', events' := Extend(states', events', Settled(WriteQueue));
    states', events' := Extend(states', events', Settled(WriteRow));
  }

  /**
   Whichever call is refused so, and for whatever reason, the job fails for good and its
   row says succeeded: nothing was read, and nothing accepted as succeeded.
   */
  lemma RowCanSucceedOnRefusal(cfg: Config, what: Refused, reason: string)
    ensures exists states, events ::
              && Run(states, events) && Last(states).cfg == cfg
              && |Last(states).jobs| == 1 && RowKey(Last(states).jobs[0]) == DEPLOYMENT
              && Last(states).jobs[0].state == JobFailed && Last(states).jobs[0].lastError == Some(reason)
              && DEPLOYMENT in Last(states).rows && Last(states).rows[DEPLOYMENT].status == Succeeded
              && Last(states).ledger.heard.accepted == {}
              && !WasRead(states, events, DEPLOYMENT)
  {
    var states, events;
    match what {
      case RefusedTarget => states, events := RefuseTarget(cfg, reason);
      case RefusedDeploy => states, events := RefuseDeploy(cfg, reason);
      case RefusedPoll => states, events := RefusePoll(cfg, reason);
    }
    states, events := SettleRefusal(states, events, reason);
    assert Last(states).ledger.heard.accepted == {};
    Unsaid(states, events, DEPLOYMENT, ReadRun);
    Unsaid(states, events, DEPLOYMENT, ReadElsewhere);
  }

  // ---------------------------------------------------------------- a preview without a key

  const BRANCH := Key("org", "branch")

  const BRANCH_PAYLOAD := Payload("org", "branch", "project", Create, Preview, false, None, None, Some("repository"))

  const BRANCH_INPUT := EnqueueInput("org", DEPLOYMENT_JOB_KIND, BRANCH_PAYLOAD, "branch", Some(1))

  /** The production application is bound, its worker dies, and a keyless preview is asked for and claimed. */
  lemma ClaimBranch(cfg: Config) returns (states: seq<World>, events: seq<Event>)
    ensures Run(states, events) && Last(states).cfg == cfg && Last(states).pc == Holding(1, Started)
    ensures |Last(states).jobs| == 2 && Last(states).jobs[1].payload == BRANCH_PAYLOAD
    ensures IsDeployment(Last(states).jobs[1])
    ensures BRANCH in Last(states).rows && Last(states).rows[BRANCH].handle.None?
    ensures Last(states).slots == map[ProductionSlot(PROJECT) := "app"]
    ensures Last(states).ledger.created == multiset{"app"}
  {
    states, events := Begin(cfg, 1, false);
    states, events := Extend(states, events, Env(Crash));
    states, events := RecordBranch(states, events);
    FirstClaimableIs(Last(states).jobs, Last(states).now, 1);
    states, events := Extend(states, events, Env(Claim));
  }

  lemma RecordBranch(states: seq<World>, events: seq<Event>) returns (states': seq<World>, events': seq<Event>)
    requires Run(states, events) && Last(states).pc.Idle? && Last(states).rows.Keys == {DEPLOYMENT}
    requires |Last(states).jobs| == 1 && IsTheJob(Last(states).jobs[0], 1)
    requires JobKey(Last(states).jobs[0]) == InputKey(Input(1))
    ensures Run(states', events') && Last(states').pc.Idle? && Last(states').cfg == Last(states).cfg
    ensures Last(states').jobs == Last(states).jobs + [NewJob(2, BRANCH_INPUT, Last(states).now)]
    ensures Last(states').now == Last(states).now
    ensures BRANCH in Last(states').rows && Last(states').rows[BRANCH].handle.None?
    ensures Last(states').slots == Last(states).slots && Last(states').ledger == Last(states).ledger
  {
    var row := NewRow(PROJECT, Preview, false, Last(states).now);
    assert EnvEnabled(Last(states), CreateRow(BRANCH, row));
    states', events' := Extend(states, events, Env(CreateRow(BRANCH, row)));
    assert Submittable(Last(states'), BRANCH_INPUT);
    KeysDiffer();
    states', events' := Extend(states', events', Env(Submit(BRANCH_INPUT)));
  }

  lemma KeysDiffer()
    ensures InputKey(Input(1)) != InputKey(BRANCH_INPUT)
  {
    assert InputKey(Input(1)) == "org" + "::" + DEPLOYMENT_JOB_KIND + "::" + "key";
    assert |InputKey(Input(1))| + 3 == |InputKey(BRANCH_INPUT)|;
  }

  /**
   It deploys onto the application production was given, under an engine that addresses
   its work and issues fresh ids.
   */
  lemma KeylessPreviewDeploysOntoProduction(cfg: Config)
    ensures exists states, events ::
              && Run(states, events) && Last(states).cfg == cfg && FreshIds(Last(states).ledger)
              && |Last(states).jobs| == 2 && Last(states).jobs[1].payload == BRANCH_PAYLOAD
              && Deployed(1, "app", None) in Last(states).ledger.made
              && Last(states).slots == map[ProductionSlot(PROJECT) := "app"]
  {
    var states, events := ClaimBranch(cfg);
    states, events := Extend(states, events, Prepare(Start(false)));
    assert Last(states).pc == Holding(1, Deploying("app", None));
    states, events := Extend(states, events, Act(ActionAnswer(Ok(Running, EngineRun("branch")))));
    assert FreshIds(Last(states).ledger);
  }
}
