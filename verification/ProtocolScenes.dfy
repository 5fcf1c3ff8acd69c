/**
 Pieces of concrete runs, for the lemmas that build one: one project, one deployment
 and one job, from the first claim on.
 */
module ProtocolScenes {
  import opened Contracts
  import opened Queue
  import opened Deployments
  import opened Protocol
  import opened ProtocolRuns

  /** The event is no deploy or rollback call answered in another way than this. */
  predicate Answers(e: Event, answer: AdapterResult<ProviderRef>) {
    e.Act? && e.act.ActionAnswer? ==> e.act.action == answer
  }

  ghost predicate AllAnswer(events: seq<Event>, answer: AdapterResult<ProviderRef>) {
    forall i :: 0 <= i < |events| ==> Answers(events[i], answer)
  }

  /** The worker never dies. */
  ghost predicate Unbroken(events: seq<Event>) {
    forall i :: 0 <= i < |events| ==> events[i] != Env(Crash)
  }

  /** A run made one event longer. */
  lemma Extend(states: seq<World>, events: seq<Event>, e: Event) returns (states': seq<World>, events': seq<Event>)
    requires Run(states, events) && Enabled(Last(states), e)
    ensures Run(states', events') && Last(states') == Next(Last(states), e)
    ensures events' == events + [e] && |states'| == |states| + 1
    ensures AllAddress(events) && Addresses(e) ==> AllAddress(events')
    ensures Unbroken(events) && e != Env(Crash) ==> Unbroken(events')
    ensures forall answer :: AllAnswer(events, answer) && Answers(e, answer) ==> AllAnswer(events', answer)
  {
    states', events' := states + [Next(Last(states), e)], events + [e];
    forall i | 0 <= i < |events'|
      ensures Enabled(states'[i], events'[i]) && states'[i + 1] == Next(states'[i], events'[i])
    {
      if i < |events| {
        assert states'[i] == states[i] && states'[i + 1] == states[i + 1] && events'[i] == events[i];
      }
    }
  }

  // ---------------------------------------------------------------- the scene

  const PROJECT := Key("org", "project")
  const DEPLOYMENT := Key("org", "deployment")

  const PAYLOAD := Payload("org", "deployment", "project", Create, Production, false, None, None, Some("repository"))

  function Input(budget: int): EnqueueInput<Payload> {
    EnqueueInput("org", DEPLOYMENT_JOB_KIND, PAYLOAD, "key", Some(budget))
  }

  /** The one job of these runs. */
  predicate IsTheJob(job: Job<Payload>, budget: int) {
    && job.organization == "org" && job.key == "key"
    && job.payload == PAYLOAD && IsDeployment(job) && job.maxAttempts == budget && job.createdAt == 0
  }

  predicate IsTheRow(row: Row) {
    row.project == PROJECT && row.kind == Production && !row.staged && row.createdAt == 0
  }

  /** The job and its row, the application bound, and `calls` deploys made so far. */
  predicate Scene(w: World, calls: nat, budget: int) {
    && |w.jobs| == 1 && IsTheJob(w.jobs[0], budget)
    && w.rows.Keys == {DEPLOYMENT} && IsTheRow(w.rows[DEPLOYMENT])
    && w.slots == map[ProductionSlot(PROJECT) := "app"]
    && w.ledger.calls[0] == calls
  }

  /** The job is claimed. */
  predicate Holds(w: World, stage: Stage, calls: nat, budget: int) {
    && Scene(w, calls, budget) && w.pc == Holding(0, stage)
    && w.jobs[0].state == JobRunning && 1 <= w.jobs[0].attempts <= budget
    && w.jobs[0].leaseExpiresAt.Some? && w.jobs[0].deferredUntil.None?
  }

  /** The queue has let go of the job, which can be claimed again `ms` from now. */
  predicate Waits(w: World, ms: nat, calls: nat, budget: int) {
    && Scene(w, calls, budget)
    && w.jobs[0].state == JobQueued && w.jobs[0].attempts < budget
    && (w.jobs[0].deferredUntil.Some? ==> w.jobs[0].deferredUntil.value <= w.now + ms)
  }

  /** The clock, the pointer, the usage and the settlements have not moved. */
  predicate SameAround(w: World, w': World) {
    && w'.cfg == w.cfg && w'.now == w.now && w'.live == w.live && w'.usage == w.usage
    && w'.ledger.early == w.ledger.early
  }

  // ---------------------------------------------------------------- up to the call

  /** A fresh project with its row and its job recorded. */
  lemma Record(cfg: Config, budget: int) returns (states: seq<World>, events: seq<Event>)
    requires budget > 0
    ensures Run(states, events) && AllAddress(events) && Unbroken(events) && forall answer :: AllAnswer(events, answer)
    ensures Last(states) == World(cfg, 0, [NewJob(1, Input(budget), 0)],
                                  map[DEPLOYMENT := NewRow(PROJECT, Production, false, 0)],
                                  map[], map[], multiset{}, Idle, EMPTY_LEDGER)
  {
    var start := World(cfg, 0, [], map[], map[], map[], multiset{}, Idle, EMPTY_LEDGER);
    states, events := [start], [];
    var create := CreateRow(DEPLOYMENT, NewRow(PROJECT, Production, false, 0));
    assert EnvEnabled(start, create);
    states, events := Extend(states, events, Env(create));
    assert Submittable(Last(states), Input(budget));
    states, events := Extend(states, events, Env(Submit(Input(budget))));
  }

  lemma FirstClaim(cfg: Config, budget: int) returns (states: seq<World>, events: seq<Event>)
    requires budget > 0
    ensures Run(states, events) && AllAddress(events) && Unbroken(events) && forall answer :: AllAnswer(events, answer)
    ensures var w := Last(states);
            && w.cfg == cfg && w.now == 0 && w.pc == Holding(0, Started)
            && w.jobs == [TakeJob(NewJob(1, Input(budget), 0), 0, cfg.leaseMs)]
            && w.rows == map[DEPLOYMENT := NewRow(PROJECT, Production, false, 0)] && w.slots == map[]
            && w.ledger == EMPTY_LEDGER.(claims := multiset{0}) && w.usage == multiset{} && w.live == map[]
  {
    states, events := Record(cfg, budget);
    FirstClaimableIs(Last(states).jobs, 0, 0);
    states, events := Extend(states, events, Env(Claim));
  }

  /** The first claim, up to the project's application. */
  lemma Begin(cfg: Config, budget: int, serverless: bool) returns (states: seq<World>, events: seq<Event>)
    requires budget > 0
    ensures Run(states, events) && AllAddress(events) && Unbroken(events) && forall answer :: AllAnswer(events, answer)
    ensures var w := Last(states);
            && w.cfg == cfg && w.now == 0 && Holds(w, AfterTarget(serverless, "app"), 0, budget)
            && w.jobs == [TakeJob(NewJob(1, Input(budget), 0), 0, cfg.leaseMs)]
            && w.rows == map[DEPLOYMENT := NewRow(PROJECT, Production, false, 0)]
            && w.usage == multiset{} && w.live == map[] && w.ledger.early == multiset{}
            && w.ledger.created == multiset{"app"} && w.ledger.heard == NOTHING_HEARD
  {
    states, events := FirstClaim(cfg, budget);
    states, events := Extend(states, events, Prepare(Start(serverless)));
    assert Last(states).pc == Holding(0, Ensuring(serverless));
    states, events := Extend(states, events, Prepare(EnsureAnswer(Ok(Succeeded, ProviderRef(ApplicationRef, "app")))));
    states, events := Extend(states, events, Prepare(BindSlot));
  }

  /** What a deploy is given to deploy: a function's build, or nothing. */
  function BuildFor(serverless: bool): Option<string> {
    if serverless then Some("build") else None
  }

  /** The artifact, when the project needs one. */
  lemma BuildFirst(states: seq<World>, events: seq<Event>, serverless: bool, calls: nat, budget: int)
    returns (states': seq<World>, events': seq<Event>)
    requires Run(states, events) && Holds(Last(states), AfterTarget(serverless, "app"), calls, budget)
    ensures Run(states', events') && Holds(Last(states'), Deploying("app", BuildFor(serverless)), calls, budget)
    ensures SameAround(Last(states), Last(states')) && Last(states').ledger.heard == Last(states).ledger.heard
    ensures Last(states').rows[DEPLOYMENT].handle == Last(states).rows[DEPLOYMENT].handle
    ensures Unbroken(events) ==> Unbroken(events')
    ensures forall answer :: AllAnswer(events, answer) ==> AllAnswer(events', answer)
  {
    states', events' := states, events;
    if serverless {
      states', events' := StartBuild(states, events, calls, budget);
      states', events' := Extend(states', events', Prepare(ArtifactReady));
    }
  }

  lemma StartBuild(states: seq<World>, events: seq<Event>, calls: nat, budget: int)
    returns (states': seq<World>, events': seq<Event>)
    requires Run(states, events) && Holds(Last(states), Building("app"), calls, budget)
    ensures Run(states', events') && Holds(Last(states'), AwaitingArtifact("app", "build"), calls, budget)
    ensures SameAround(Last(states), Last(states')) && Last(states').ledger.heard == Last(states).ledger.heard
    ensures Last(states').rows[DEPLOYMENT].handle == Last(states).rows[DEPLOYMENT].handle
    ensures Unbroken(events) ==> Unbroken(events')
    ensures forall answer :: AllAnswer(events, answer) ==> AllAnswer(events', answer)
  {
    states', events' := Extend(states, events, Prepare(BuildAccepted("build")));
    states', events' := Extend(states', events', Prepare(MarkBuild));
  }

  // ---------------------------------------------------------------- claimed again

  /** Once its deferral has elapsed the job is claimed again. */
  lemma ClaimAfter(states: seq<World>, events: seq<Event>, ms: nat, calls: nat, budget: int)
    returns (states': seq<World>, events': seq<Event>)
    requires Run(states, events) && Waits(Last(states), ms, calls, budget) && Last(states).pc.Idle?
    ensures Run(states', events') && Holds(Last(states'), Started, calls, budget)
    ensures Last(states').jobs[0].attempts == Last(states).jobs[0].attempts + 1
    ensures SameAround(Last(states).(now := Last(states).now + ms), Last(states'))
    ensures Last(states').rows == Last(states).rows
    ensures Last(states').ledger.heard == Last(states).ledger.heard
    ensures AllAddress(events) ==> AllAddress(events')
    ensures Unbroken(events) ==> Unbroken(events')
    ensures forall answer :: AllAnswer(events, answer) ==> AllAnswer(events', answer)
  {
    states', events' := Extend(states, events, Env(Advance(ms)));
    FirstClaimableIs(Last(states').jobs, Last(states').now, 0);
    states', events' := Extend(states', events', Env(Claim));
  }

  /** A claim whose worker died is reaped once its lease has lapsed. */
  lemma ReapAfter(states: seq<World>, events: seq<Event>, ms: nat, calls: nat, budget: int)
    returns (states': seq<World>, events': seq<Event>)
    requires Run(states, events) && Scene(Last(states), calls, budget) && Last(states).pc.Idle?
    requires Expired(Last(states).jobs[0], Last(states).now + ms) && Last(states).jobs[0].deferredUntil.None?
    requires Last(states).jobs[0].attempts < budget
    ensures Run(states', events') && Waits(Last(states'), 0, calls, budget) && Last(states').pc.Idle?
    ensures Last(states').jobs[0].attempts == Last(states).jobs[0].attempts
    ensures SameAround(Last(states).(now := Last(states).now + ms), Last(states'))
    ensures Last(states').rows == Last(states).rows
    ensures Last(states').ledger.heard == Last(states).ledger.heard
    ensures AllAddress(events) ==> AllAddress(events')
    ensures forall answer :: AllAnswer(events, answer) ==> AllAnswer(events', answer)
  {
    states', events' := Extend(states, events, Env(Advance(ms)));
    states', events' := Extend(states', events', Env(Reap));
  }

  // ---------------------------------------------------------------- a build in flight under its own handle

  function EngineRun(id: string): ProviderRef {
    ProviderRef(DeploymentRef, id)
  }

  const STILL_RUNNING: AdapterResult<DeploymentState> := Ok(Succeeded, DeploymentState(Running, None, None))

  const SETTLED: AdapterResult<DeploymentState> := Ok(Succeeded, DeploymentState(Succeeded, None, None))

  /** The engine accepts work in flight, under a handle to poll it by. */
  predicate Starts(answer: AdapterResult<ProviderRef>) {
    answer.Ok? && Addressing(answer)
  }

  /** The row holds a build of this application's, still in flight. */
  predicate InProgress(row: Row) {
    RowInFlight(row) && row.app == Some("app")
  }

  /** A container deploy the engine accepts under its own handle, which the row then holds. */
  lemma DeployAndMark(states: seq<World>, events: seq<Event>, answer: AdapterResult<ProviderRef>, calls: nat,
                      budget: int)
    returns (states': seq<World>, events': seq<Event>)
    requires Run(states, events) && AllAnswer(events, answer) && Starts(answer)
    requires Holds(Last(states), Deploying("app", None), calls, budget)
    ensures Run(states', events') && AllAnswer(events', answer)
    ensures Holds(Last(states'), Reading(answer.status, "app", answer.value, None), calls + 1, budget)
    ensures InProgress(Last(states').rows[DEPLOYMENT])
    ensures SameAround(Last(states), Last(states')) && Last(states').jobs == Last(states).jobs
    ensures Last(states').ledger.heard == Last(states).ledger.heard
  {
    states', events' := Extend(states, events, Act(ActionAnswer(answer)));
    states', events' := Extend(states', events', Act(MarkHandle));
  }
}
