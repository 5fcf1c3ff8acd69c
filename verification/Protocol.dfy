/**
 The deployment protocol as a state machine.

 One step is one engine call, one store write or one queue call. Between any two
 of them the clock may advance, the API may record new work, or the process may
 die; a dead process loses only where it was (`pc`). One worker runs: it reaps,
 ticks and sweeps, never two of them at once.

 The engine is an environment: the answers it gives are arguments of the events,
 so every run of this machine is a run against some engine, and every engine is
 covered.
 */
module Protocol {
  import opened Contracts
  import opened Queue
  import opened Deployments
  import opened Reconcile

  const DEPLOYMENT_JOB_KIND := "deployments.execute"

  datatype Config = Config(
    leaseMs: nat,
    pollBackoffMs: nat,
    pollCeilingMs: nat,
    staleAfterMs: nat,
    hardCeilingMs: nat,
    sweepLimit: nat)

  /** Where the handler is, and what it holds in memory there. */
  datatype Stage =
    | Started
    | Polling(app: Option<string>, handle: string)
    | RollingBack(target: string, commit: string)
    | Ensuring(serverless: bool)
    | Recording(serverless: bool, target: string)
    | Building(target: string)
    | MarkingBuild(target: string, build: string)
    | AwaitingArtifact(target: string, build: string)
    | Deploying(target: string, buildRef: Option<string>)
    | Marking(accepted: EngineStatus, resolved: string, ref: ProviderRef, buildRef: Option<string>)
    | Reading(accepted: EngineStatus, resolved: string, ref: ProviderRef, buildRef: Option<string>)
    | Returned(called: bool, execution: ExecutionResult)
    | Settling(called: bool, write: QueueWrite, result: AdapterResult<ExecutionResult>, checkedAt: nat)

  /**
   Where the applier is, once the queue has let go of the job. It owes the job a build
   to poll when the claim called the engine and was deferred.
   */
  datatype Mirror = Applying(owes: bool, result: AdapterResult<ExecutionResult>) | Promoting | Metering

  /** Where the sweep is with the row it is visiting. */
  datatype Visit =
    | Listing
    | Asking(row: Stranded)
    | Writing(row: Stranded, decision: SweepDecision)
    | PromotingRow(row: Stranded)
    | MeteringRow(row: Stranded)

  /** Where the worker is. While it is holding a job it still owes the queue the call that ends the claim. */
  datatype Pc =
    | Idle
    | Holding(job: nat, stage: Stage)
    | Mirroring(job: nat, mirror: Mirror)
    | Sweeping(visit: Visit, rest: seq<Stranded>, at: nat)

  /** The handler is running: it has been started and has not returned. */
  predicate InHandler(stage: Stage) {
    !stage.Returned? && !stage.Settling?
  }

  /**
   What one step hears from the engine about a deployment's success: its state read
   under the run's own handle, or under another reference; an action accepted with
   the status succeeded; the state refused after such an acceptance, which the
   executor then takes at its word; or a refusal that carries the status succeeded.
   */
  datatype Said = Silence | ReadRun | ReadElsewhere | Acceptance | Guess | Contradiction

  /** The deployments each of these has been said of. */
  datatype Heard = Heard(read: set<Key>, elsewhere: set<Key>, accepted: set<Key>, guessed: set<Key>,
                         contradicted: set<Key>)

  const NOTHING_HEARD: Heard := Heard({}, {}, {}, {}, {})

  /** A call that asks the engine to act: which job it was made for, on which application, with what. */
  datatype EngineCall =
    | Deployed(job: nat, app: string, build: Option<string>)
    | RolledBack(job: nat, app: string, commit: string)

  /** What has happened so far, counted. Nothing the program does reads it. */
  datatype Ledger = Ledger(
    claims: multiset<nat>,          // claims of each job
    ends: multiset<nat>,            // queue calls or reaps that ended a claim
    deferrals: multiset<nat>,       // deferrals of each job
    lastCheck: map<nat, nat>,       // when the last deferral looked at the clock
    calls: multiset<nat>,           // engine deploy and rollback calls made for each job
    made: set<EngineCall>,          // those calls, by what they asked for
    unaddressed: multiset<nat>,     // deferrals after a call whose row was left without a build to poll
    created: multiset<string>,      // application ids the engine issued
    bound: multiset<Slot>,          // writes of each application slot
    heard: Heard,                   // what the engine has said of success
    recorded: set<Key>,             // deployments whose row has said succeeded
    settled: multiset<Key>,         // rows the sweep settled
    early: multiset<Key>)           // of those, rows whose job was not finished

  datatype World = World(
    cfg: Config,
    now: nat,
    jobs: seq<Job<Payload>>,
    rows: map<Key, Row>,
    slots: map<Slot, string>,
    live: map<Key, Key>,
    usage: multiset<Key>,
    pc: Pc,
    ledger: Ledger)

  const EMPTY_LEDGER: Ledger := Ledger(multiset{}, multiset{}, multiset{}, map[], multiset{}, {}, multiset{},
                                       multiset{}, multiset{}, NOTHING_HEARD, {}, multiset{}, multiset{})

  predicate Initial(w: World) {
    w == World(w.cfg, w.now, [], map[], map[], map[], multiset{}, Idle, EMPTY_LEDGER)
  }

  /** What happens outside the worker's own program. */
  datatype EnvEvent =
    | Advance(ms: nat)
    | CreateRow(key: Key, row: Row)
    | Submit(input: EnqueueInput<Payload>)
    | Reap
    | Claim
    | Crash

  /** The handler up to the engine call: what it reads, and the target and artifact it prepares. */
  datatype PrepareEvent =
    | NoHandler
    | Start(serverless: bool)
    | EnsureAnswer(ensured: AdapterResult<ProviderRef>)
    | BindSlot
    | BuildRefused(reason: string)
    | BuildAccepted(build: string)
    | MarkBuild
    | ArtifactReady

  /** The handler's engine calls: the action, its handle, and the state read back or polled. */
  datatype ActEvent =
    | ActionAnswer(action: AdapterResult<ProviderRef>)
    | ActionThrew(reason: string)
    | ActionLost
    | MarkHandle
    | StateAnswer(asked: ProviderRef, state: AdapterResult<DeploymentState>)
    | Throw(reason: string)

  /** The processor and the applier: the queue call first, then the row, the pointer and the usage. */
  datatype SettleEvent = Decide | WriteQueue | WriteRow | Promote | Meter

  datatype SweepEvent =
    | SweepStart(list: seq<Stranded>)
    | SweepSkip
    | SweepReach
    | SweepAnswer(asked: ProviderRef, state: AdapterResult<DeploymentState>)
    | SweepWrite
    | SweepPromote
    | SweepMeter
    | SweepEnd

  datatype Event =
    | Env(env: EnvEvent)
    | Prepare(prepare: PrepareEvent)
    | Act(act: ActEvent)
    | Settled(settle: SettleEvent)
    | Swept(sweep: SweepEvent)

  // ---------------------------------------------------------------- reads

  /** The job is one the deployment handler runs. */
  predicate IsDeployment(job: Job<Payload>) {
    job.kind == DEPLOYMENT_JOB_KIND
  }

  /** The row a job advances. */
  function RowKey(job: Job<Payload>): Key {
    DeploymentOf(job.payload)
  }

  /** A row read by its key, scoped by organization. */
  function ReadRow(w: World, key: Key): Option<Row> {
    if key in w.rows then Some(w.rows[key]) else None
  }

  /** The job that advances a deployment has finished. */
  ghost predicate JobFinished(w: World, key: Key) {
    exists j :: 0 <= j < |w.jobs| && IsDeployment(w.jobs[j]) && RowKey(w.jobs[j]) == key && TerminalJob(w.jobs[j].state)
  }

  ghost predicate ListsStranded(w: World, list: seq<Stranded>) {
    StrandedListing(w.rows, w.now, w.cfg.staleAfterMs, w.cfg.sweepLimit, list)
  }

  // ---------------------------------------------------------------- writes

  function WithRow(w: World, key: Key, row: Row): World {
    w.(rows := w.rows[key := row],
       ledger := w.ledger.(recorded := w.ledger.recorded + KeyIf(row.status == Succeeded, key)))
  }

  /** A row write scoped to its key: a missing row is left missing. */
  function UpdateRow(w: World, key: Key, update: Row -> Row): World {
    if key in w.rows then WithRow(w, key, update(w.rows[key])) else w
  }

  function KeyIf(yes: bool, key: Key): set<Key> {
    if yes then {key} else {}
  }

  function Hears(h: Heard, key: Key, said: Said): Heard {
    Heard(h.read + KeyIf(said == ReadRun, key),
          h.elsewhere + KeyIf(said == ReadElsewhere, key),
          h.accepted + KeyIf(said == Acceptance, key),
          h.guessed + KeyIf(said == Guess, key),
          h.contradicted + KeyIf(said == Contradiction, key))
  }

  /** The engine has spoken of a deployment. */
  function Hear(w: World, key: Key, said: Said): World {
    w.(ledger := w.ledger.(heard := Hears(w.ledger.heard, key, said)))
  }

  /** A state read as succeeded: under the run's own handle or not. */
  function ReadUnder(asked: ProviderRef): Said {
    if asked.resourceType == DeploymentRef then ReadRun else ReadElsewhere
  }

  function EnsureSays(answer: AdapterResult<ProviderRef>): Said {
    if answer.Err? && answer.status == Succeeded then Contradiction else Silence
  }

  function ActionSays(answer: AdapterResult<ProviderRef>): Said {
    if answer.status != Succeeded then Silence else if answer.Ok? then Acceptance else Contradiction
  }

  function StateSays(stage: Stage, answer: AdapterResult<DeploymentState>): Said
    requires stage.Polling? || stage.Reading?
  {
    match answer
    case Ok(_, state) =>
      if state.status != Succeeded then Silence else ReadUnder(StateRef(stage))
    case Err(status, _) =>
      if stage.Polling? then (if status == Succeeded then Contradiction else Silence)
      else if stage.accepted == Succeeded then Guess else Silence
  }

  function SweepSays(asked: ProviderRef, answer: AdapterResult<DeploymentState>): Said {
    if answer.Ok? && answer.value.status == Succeeded then ReadUnder(asked) else Silence
  }

  function QueueCall(job: Job<Payload>, write: QueueWrite, now: nat, backoffMs: nat): Job<Payload> {
    match write
    case CompleteWrite => CompleteJob(job, now)
    case FailWrite(reason) => FailJob(job, reason, now)
    case TerminateWrite(reason) => TerminateJob(job, reason, now)
    case DeferWrite(reason) => DeferJob(job, reason, backoffMs, now)
  }

  function Expiring(w: World): set<nat> {
    set j: nat | j < |w.jobs| && Expired(w.jobs[j], w.now)
  }

  function AfterTarget(serverless: bool, target: string): Stage {
    if serverless then Building(target) else Deploying(target, None)
  }

  /** Where the handler goes once it has read the project, the slot and its own row. */
  function Dispatch(w: World, p: Payload, serverless: bool): Stage {
    var target := BoundTo(w.slots, SlotOf(p));
    var runsServerless := serverless && !IsPreview(p);
    var stored := ReadRow(w, DeploymentOf(p));
    if stored.Some? && RowInFlight(stored.value) then Polling(stored.value.app, stored.value.handle.value)
    else if p.action == Rollback then
      if target.None? || !Present(p.commit)
      then Returned(false, ExecutionResult(NotConfigured, None, target, None, None, Some(NOTHING_TO_ROLL_BACK)))
      else RollingBack(target.value, p.commit.value)
    else if target.None? then Ensuring(runsServerless)
    else AfterTarget(runsServerless, target.value)
  }

  /** The application id a confirmed action reports. A rollback has none of its own and takes the reference's. */
  function ResolvedApp(stage: Stage, ref: ProviderRef): string {
    if stage.Deploying? then stage.target else ref.id
  }

  // ---------------------------------------------------------------- steps

  ghost predicate Submittable(w: World, input: EnqueueInput<Payload>) {
    && Budgeted(input)
    && (input.kind == DEPLOYMENT_JOB_KIND ==>
          var key := DeploymentOf(input.payload);
          && key in w.rows
          && w.rows[key].project == ProjectOf(input.payload)
          && w.rows[key].kind == input.payload.kind
          && w.rows[key].staged == input.payload.staged
          && forall j :: 0 <= j < |w.jobs| && IsDeployment(w.jobs[j]) && RowKey(w.jobs[j]) == key
               ==> JobKey(w.jobs[j]) == InputKey(input))
  }

  // The worker's own steps need its position to name a job.

  predicate AtStage(w: World) {
    w.pc.Holding? && w.pc.job < |w.jobs|
  }

  predicate AtMirror(w: World) {
    w.pc.Mirroring? && w.pc.job < |w.jobs|
  }

  predicate AtAction(w: World) {
    AtStage(w) && (w.pc.stage.RollingBack? || w.pc.stage.Deploying?)
  }

  /** The worker moves on to another stage of the same job. */
  function ToStage(w: World, stage: Stage): World
    requires w.pc.Holding?
  {
    w.(pc := Holding(w.pc.job, stage))
  }

  // ---------------------------------------------------------------- outside steps

  /** The job's row holds a build in flight that a later claim would poll. */
  predicate Pollable(rows: map<Key, Row>, key: Key) {
    key in rows && RowInFlight(rows[key])
  }

  /** The applier owes the job a build to poll, and its row has none. */
  predicate LeavesNothing(w: World) {
    AtMirror(w) && w.pc.mirror.Applying? && w.pc.mirror.owes && !Pollable(w.rows, RowKey(w.jobs[w.pc.job]))
  }

  /** The worker lets go of what it was doing. A build still owed then is never recorded. */
  function LetGo(w: World): World {
    if LeavesNothing(w)
    then w.(pc := Idle, ledger := w.ledger.(unaddressed := w.ledger.unaddressed + multiset{w.pc.job}))
    else w.(pc := Idle)
  }

  ghost predicate EnvEnabled(w: World, e: EnvEvent) {
    match e
    case Advance(_) => true
    case CreateRow(key, row) => key !in w.rows && row == NewRow(row.project, row.kind, row.staged, w.now)
    case Submit(input) => Submittable(w, input)
    case Reap => w.pc.Idle?
    case Claim => w.pc.Idle? && FirstClaimable(w.jobs, w.now).Some?
    case Crash => true
  }

  function OnReap(w: World): World {
    w.(jobs := ReapAll(w.jobs, w.now),
       ledger := w.ledger.(ends := w.ledger.ends + multiset(Expiring(w))))
  }

  function OnClaim(w: World): World
    requires FirstClaimable(w.jobs, w.now).Some?
  {
    var j := FirstClaimable(w.jobs, w.now).value;
    w.(jobs := w.jobs[j := TakeJob(w.jobs[j], w.now, w.cfg.leaseMs)],
       pc := Holding(j, Started),
       ledger := w.ledger.(claims := w.ledger.claims + multiset{j}))
  }

  ghost function NextEnv(w: World, e: EnvEvent): World
    requires EnvEnabled(w, e)
  {
    match e
    case Advance(ms) => w.(now := w.now + ms)
    case CreateRow(key, row) => w.(rows := w.rows[key := row])
    case Submit(input) => w.(jobs := Enqueued(w.jobs, input, w.now))
    case Reap => OnReap(w)
    case Claim => OnClaim(w)
    case Crash => LetGo(w)
  }

  // ---------------------------------------------------------------- preparing

  predicate PrepareEnabled(w: World, e: PrepareEvent) {
    && AtStage(w)
    && match e
       case NoHandler => w.pc.stage.Started? && !IsDeployment(w.jobs[w.pc.job])
       case Start(_) => w.pc.stage.Started? && IsDeployment(w.jobs[w.pc.job])
       case EnsureAnswer(_) => w.pc.stage.Ensuring?
       case BindSlot => w.pc.stage.Recording?
       case BuildRefused(_) => w.pc.stage.Building? || w.pc.stage.AwaitingArtifact?
       case BuildAccepted(_) => w.pc.stage.Building? && Present(w.jobs[w.pc.job].payload.repository)
       case MarkBuild => w.pc.stage.MarkingBuild?
       case ArtifactReady => w.pc.stage.AwaitingArtifact?
  }

  function OnNoHandler(w: World): World
    requires AtStage(w)
  {
    var reason := "No handler registered for kind '" + w.jobs[w.pc.job].kind + "'.";
    ToStage(w, Settling(false, TerminateWrite(reason), Err(NotConfigured, reason), w.now))
  }

  function OnEnsureAnswer(w: World, answer: AdapterResult<ProviderRef>): World
    requires AtStage(w) && w.pc.stage.Ensuring?
  {
    match answer
    case Err(status, reason) =>
      ToStage(Hear(w, RowKey(w.jobs[w.pc.job]), EnsureSays(answer)),
              Returned(false, ExecutionResult(status, None, None, None, None, Some(reason))))
    case Ok(_, ref) =>
      ToStage(w, Recording(w.pc.stage.serverless, ref.id))
      .(ledger := w.ledger.(created := w.ledger.created + multiset{ref.id}))
  }

  function OnBindSlot(w: World): World
    requires AtStage(w) && w.pc.stage.Recording?
  {
    var slot := SlotOf(w.jobs[w.pc.job].payload);
    ToStage(w, AfterTarget(w.pc.stage.serverless, w.pc.stage.target))
    .(slots := w.slots[slot := w.pc.stage.target],
      ledger := w.ledger.(bound := w.ledger.bound + multiset{slot}))
  }

  function OnMarkBuild(w: World): World
    requires AtStage(w) && w.pc.stage.MarkingBuild?
  {
    var build := w.pc.stage.build;
    ToStage(UpdateRow(w, RowKey(w.jobs[w.pc.job]), row => MarkRowBuild(row, build)),
            AwaitingArtifact(w.pc.stage.target, build))
  }

  function NextPrepare(w: World, e: PrepareEvent): World
    requires PrepareEnabled(w, e)
  {
    match e
    case NoHandler => OnNoHandler(w)
    case Start(serverless) => ToStage(w, Dispatch(w, w.jobs[w.pc.job].payload, serverless))
    case EnsureAnswer(answer) => OnEnsureAnswer(w, answer)
    case BindSlot => OnBindSlot(w)
    case BuildRefused(reason) =>
      ToStage(w, Returned(false, ExecutionResult(Failed, None, Some(w.pc.stage.target), None, None, Some(reason))))
    case BuildAccepted(build) => ToStage(w, MarkingBuild(w.pc.stage.target, build))
    case MarkBuild => OnMarkBuild(w)
    case ArtifactReady => ToStage(w, Deploying(w.pc.stage.target, Some(w.pc.stage.build)))
  }

  // ---------------------------------------------------------------- acting

  predicate ActEnabled(w: World, e: ActEvent) {
    match e
    case ActionAnswer(_) => AtAction(w)
    case ActionThrew(_) => AtAction(w)
    case ActionLost => AtAction(w)
    case MarkHandle => AtStage(w) && w.pc.stage.Marking?
    case StateAnswer(asked, _) =>
      AtStage(w) && (w.pc.stage.Polling? || w.pc.stage.Reading?) && asked == StateRef(w.pc.stage)
    case Throw(_) => AtStage(w) && InHandler(w.pc.stage)
  }

  /** The reference a state is read of: the run that is polled, or what the action was answered with. */
  function StateRef(stage: Stage): ProviderRef
    requires stage.Polling? || stage.Reading?
  {
    if stage.Polling? then ProviderRef(DeploymentRef, stage.handle) else stage.ref
  }

  /** The call the handler is about to make. */
  function CallAt(job: nat, stage: Stage): EngineCall
    requires stage.RollingBack? || stage.Deploying?
  {
    if stage.RollingBack? then RolledBack(job, stage.target, stage.commit)
    else Deployed(job, stage.target, stage.buildRef)
  }

  /** The engine received a deploy or rollback call, whatever became of the answer. */
  function Called(w: World): World
    requires AtAction(w)
  {
    w.(ledger := w.ledger.(calls := w.ledger.calls + multiset{w.pc.job},
                           made := w.ledger.made + {CallAt(w.pc.job, w.pc.stage)}))
  }

  function OnActionAnswer(w: World, answer: AdapterResult<ProviderRef>): World
    requires AtAction(w)
  {
    var stage := w.pc.stage;
    var build := if stage.Deploying? then stage.buildRef else None;
    match answer
    case Err(status, reason) =>
      var app := if stage.Deploying? then Some(stage.target) else None;
      ToStage(Hear(Called(w), RowKey(w.jobs[w.pc.job]), ActionSays(answer)),
              Returned(true, ExecutionResult(status, None, app, None, build, Some(reason))))
    case Ok(status, ref) =>
      var app := ResolvedApp(stage, ref);
      ToStage(Hear(Called(w), RowKey(w.jobs[w.pc.job]), ActionSays(answer)),
              if HandleOf(ref).Some? then Marking(status, app, ref, build) else Reading(status, app, ref, build))
  }

  function OnMarkHandle(w: World): World
    requires AtStage(w) && w.pc.stage.Marking?
  {
    var at := w.pc.stage;
    ToStage(UpdateRow(w, RowKey(w.jobs[w.pc.job]),
                      row => MarkRow(row, at.accepted, Some(at.resolved), HandleOf(at.ref))),
            Reading(at.accepted, at.resolved, at.ref, at.buildRef))
  }

  function OnStateAnswer(w: World, answer: AdapterResult<DeploymentState>): World
    requires AtStage(w) && (w.pc.stage.Polling? || w.pc.stage.Reading?)
  {
    var at := w.pc.stage;
    ToStage(Hear(w, RowKey(w.jobs[w.pc.job]), StateSays(at, answer)),
            if at.Polling? then Returned(false, PolledResult(answer, at.app, at.handle))
            else Returned(true, ReadBackResult(answer, at.accepted, at.resolved, at.ref, at.buildRef)))
  }

  /** A deploy or rollback call has been made in this run of the handler. */
  predicate HasCalled(stage: Stage) {
    stage.Marking? || stage.Reading?
  }

  function OnThrow(w: World, called: bool, reason: string): World
    requires AtStage(w)
  {
    ToStage(w, Settling(called, FailWrite(reason), Err(Failed, reason), w.now))
  }

  function NextAct(w: World, e: ActEvent): World
    requires ActEnabled(w, e)
  {
    match e
    case ActionAnswer(answer) => OnActionAnswer(w, answer)
    case ActionThrew(reason) => OnThrow(Called(w), true, reason)
    case ActionLost => Called(w).(pc := Idle)
    case MarkHandle => OnMarkHandle(w)
    case StateAnswer(_, answer) => OnStateAnswer(w, answer)
    case Throw(reason) => OnThrow(w, HasCalled(w.pc.stage), reason)
  }

  // ---------------------------------------------------------------- settling a job

  predicate SettleEnabled(w: World, e: SettleEvent) {
    match e
    case Decide => AtStage(w) && w.pc.stage.Returned?
    case WriteQueue => AtStage(w) && w.pc.stage.Settling?
    case WriteRow => AtMirror(w) && w.pc.mirror.Applying?
    case Promote => AtMirror(w) && w.pc.mirror.Promoting?
    case Meter => AtMirror(w) && w.pc.mirror.Metering?
  }

  function OnDecide(w: World): World
    requires AtStage(w) && w.pc.stage.Returned?
  {
    var s := Classify(HandlerOutcome(w.pc.stage.execution), w.jobs[w.pc.job].createdAt, w.now, w.cfg.pollCeilingMs);
    ToStage(w, Settling(w.pc.stage.called, s.write, s.result, w.now))
  }

  function LedgerOnDefer(w: World): Ledger
    requires AtStage(w) && w.pc.stage.Settling?
  {
    var j := w.pc.job;
    w.ledger.(ends := w.ledger.ends + multiset{j},
              deferrals := w.ledger.deferrals + multiset{j},
              lastCheck := w.ledger.lastCheck[j := w.pc.stage.checkedAt])
  }

  function OnWriteQueue(w: World): World
    requires AtStage(w) && w.pc.stage.Settling?
  {
    var j := w.pc.job;
    var write := w.pc.stage.write;
    w.(jobs := w.jobs[j := QueueCall(w.jobs[j], write, w.now, w.cfg.pollBackoffMs)],
       pc := Mirroring(j, Applying(w.pc.stage.called && write.DeferWrite?, w.pc.stage.result)),
       ledger := if write.DeferWrite? then LedgerOnDefer(w) else w.ledger.(ends := w.ledger.ends + multiset{j}))
  }

  /** Where the applier goes after the row: on to the pointer and the usage only from a success. */
  function AfterRow(job: nat, p: Payload, result: AdapterResult<ExecutionResult>): Pc {
    if !(result.Ok? && result.value.status == Succeeded) then Idle
    else if p.kind == Production && !p.staged then Mirroring(job, Promoting)
    else Mirroring(job, Metering)
  }

  function OnWriteRow(w: World): World
    requires AtMirror(w) && w.pc.mirror.Applying?
  {
    var job := w.jobs[w.pc.job];
    var result := w.pc.mirror.result;
    if !IsDeployment(job) then LetGo(w)
    else
      LetGo(UpdateRow(w, RowKey(job), row => ApplyToRow(row, result, w.now)))
      .(pc := AfterRow(w.pc.job, job.payload, result))
  }

  function NextSettle(w: World, e: SettleEvent): World
    requires SettleEnabled(w, e)
  {
    match e
    case Decide => OnDecide(w)
    case WriteQueue => OnWriteQueue(w)
    case WriteRow => OnWriteRow(w)
    case Promote =>
      w.(live := w.live[ProjectOf(w.jobs[w.pc.job].payload) := RowKey(w.jobs[w.pc.job])],
         pc := Mirroring(w.pc.job, Metering))
    case Meter => w.(usage := w.usage + multiset{RowKey(w.jobs[w.pc.job])}, pc := Idle)
  }

  // ---------------------------------------------------------------- the sweep

  /** The sweep leaves a row alone without asking the engine: nothing to ask about, and not yet past the ceiling. */
  predicate LeavesUnasked(w: World, row: Row, at: nat) {
    SweepRef(row).None? && DecideUnreached(row, at, w.cfg.hardCeilingMs).Leave?
  }

  /** The sweep is between rows, and some are left. */
  predicate AtListing(w: World) {
    w.pc.Sweeping? && w.pc.visit.Listing? && |w.pc.rest| > 0
  }

  ghost predicate SweepEnabled(w: World, e: SweepEvent) {
    match e
    case SweepStart(list) => w.pc.Idle? && ListsStranded(w, list)
    case SweepSkip => AtListing(w) && LeavesUnasked(w, w.pc.rest[0].row, w.pc.at)
    case SweepReach => AtListing(w) && !LeavesUnasked(w, w.pc.rest[0].row, w.pc.at)
    case SweepAnswer(asked, _) =>
      w.pc.Sweeping? && w.pc.visit.Asking? && SweepRef(w.pc.visit.row.row) == Some(asked)
    case SweepWrite => w.pc.Sweeping? && w.pc.visit.Writing? && w.pc.visit.decision.Settle?
    case SweepPromote => w.pc.Sweeping? && w.pc.visit.PromotingRow?
    case SweepMeter => w.pc.Sweeping? && w.pc.visit.MeteringRow?
    case SweepEnd => w.pc.Sweeping? && w.pc.visit.Listing? && |w.pc.rest| == 0
  }

  function OnSweepReach(w: World): World
    requires AtListing(w)
  {
    var row := w.pc.rest[0];
    w.(pc := Sweeping(if SweepRef(row.row).None?
                      then Writing(row, DecideUnreached(row.row, w.pc.at, w.cfg.hardCeilingMs))
                      else Asking(row), w.pc.rest[1..], w.pc.at))
  }

  function OnSweepAnswer(w: World, asked: ProviderRef, answer: AdapterResult<DeploymentState>): World
    requires w.pc.Sweeping? && w.pc.visit.Asking?
  {
    var row := w.pc.visit.row;
    var decision := DecideAnswered(row.row, answer, w.pc.at, w.cfg.hardCeilingMs);
    Hear(w, row.key, SweepSays(asked, answer))
    .(pc := Sweeping(if decision.Leave? then Listing else Writing(row, decision), w.pc.rest, w.pc.at))
  }

  /** Where the sweep goes after a row: the same order of writes as the applier. */
  function AfterSettled(row: Stranded, status: EngineStatus): Visit {
    if status != Succeeded then Listing
    else if row.row.kind == Production && !row.row.staged then PromotingRow(row)
    else MeteringRow(row)
  }

  ghost function LedgerOnSettle(w: World, key: Key): Ledger {
    w.ledger.(settled := w.ledger.settled + multiset{key},
              early := if JobFinished(w, key) then w.ledger.early else w.ledger.early + multiset{key})
  }

  ghost function OnSweepWrite(w: World): World
    requires w.pc.Sweeping? && w.pc.visit.Writing? && w.pc.visit.decision.Settle?
  {
    var row, d, at := w.pc.visit.row, w.pc.visit.decision, w.pc.at;
    UpdateRow(w.(ledger := LedgerOnSettle(w, row.key)), row.key,
              current => SettleRow(current, d.status, d.url, d.reason, row.row.app, row.row.handle, None, at))
    .(pc := Sweeping(AfterSettled(row, d.status), w.pc.rest, at))
  }

  ghost function NextSweep(w: World, e: SweepEvent): World
    requires SweepEnabled(w, e)
  {
    match e
    case SweepStart(list) => w.(pc := Sweeping(Listing, list, w.now))
    case SweepSkip => w.(pc := Sweeping(Listing, w.pc.rest[1..], w.pc.at))
    case SweepReach => OnSweepReach(w)
    case SweepAnswer(asked, answer) => OnSweepAnswer(w, asked, answer)
    case SweepWrite => OnSweepWrite(w)
    case SweepPromote =>
      w.(live := w.live[w.pc.visit.row.row.project := w.pc.visit.row.key],
         pc := Sweeping(MeteringRow(w.pc.visit.row), w.pc.rest, w.pc.at))
    case SweepMeter =>
      w.(usage := w.usage + multiset{w.pc.visit.row.key}, pc := Sweeping(Listing, w.pc.rest, w.pc.at))
    case SweepEnd => w.(pc := Idle)
  }

  // ---------------------------------------------------------------- runs

  ghost predicate Enabled(w: World, e: Event) {
    match e
    case Env(env) => EnvEnabled(w, env)
    case Prepare(prepare) => PrepareEnabled(w, prepare)
    case Act(act) => ActEnabled(w, act)
    case Settled(settle) => SettleEnabled(w, settle)
    case Swept(sweep) => SweepEnabled(w, sweep)
  }

  ghost function Next(w: World, e: Event): World
    requires Enabled(w, e)
  {
    match e
    case Env(env) => NextEnv(w, env)
    case Prepare(prepare) => NextPrepare(w, prepare)
    case Act(act) => NextAct(w, act)
    case Settled(settle) => NextSettle(w, settle)
    case Swept(sweep) => NextSweep(w, sweep)
  }

  /** A run: a start, and each state the next of the one before it. */
  ghost predicate Run(states: seq<World>, events: seq<Event>) {
    && |states| == |events| + 1
    && Initial(states[0])
    && forall i :: 0 <= i < |events| ==> Enabled(states[i], events[i]) && states[i + 1] == Next(states[i], events[i])
  }
}
