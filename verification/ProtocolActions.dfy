/**
 What a job asks for is what the engine is asked to do.

 A deploy call is made for a job that asks for a deployment, a rollback call for one
 that asks for a rollback, with the job's own commit and on the application its slot
 holds. Conversely a started job goes on to the call it asks for, one step after
 another, unless the handler throws or the worker dies.
 */
module ProtocolActions {
  import opened Contracts
  import opened Deployments
  import opened Protocol
  import opened ProtocolFrames
  import opened ProtocolBase
  import opened ProtocolRuns
  import opened ProtocolSteps

  /** The slot holds this application. */
  predicate Holds(slots: map<Slot, string>, p: Payload, app: string) {
    SlotOf(p) in slots && slots[SlotOf(p)] == app
  }

  /** A call its job may make: what it asks for, with its own commit. */
  predicate CallAsked(call: EngineCall, p: Payload) {
    match call
    case Deployed(_, _, _) => p.action == Create
    case RolledBack(_, _, commit) => p.action == Rollback && p.commit == Some(commit) && commit != ""
  }

  predicate StageAsked(stage: Stage, p: Payload, slots: map<Slot, string>) {
    match stage
    case RollingBack(target, commit) => CallAsked(RolledBack(0, target, commit), p) && Holds(slots, p, target)
    case Ensuring(_) => p.action == Create
    case Recording(_, _) => p.action == Create
    case Building(target) => p.action == Create && Holds(slots, p, target)
    case MarkingBuild(target, _) => p.action == Create && Holds(slots, p, target)
    case AwaitingArtifact(target, _) => p.action == Create && Holds(slots, p, target)
    case Deploying(target, _) => p.action == Create && Holds(slots, p, target)
    case _ => true
  }

  ghost predicate Asked(w: World) {
    && (forall call :: call in w.ledger.made ==> call.job < |w.jobs| && CallAsked(call, w.jobs[call.job].payload))
    && (AtStage(w) ==> StageAsked(w.pc.stage, w.jobs[w.pc.job].payload, w.slots))
  }

  // ---------------------------------------------------------------- steps

  /** A step that makes no call and leaves no stage that asks for anything. */
  predicate AsksNothing(w: World, w': World) {
    && w'.ledger.made == w.ledger.made && |w'.jobs| >= |w.jobs|
    && (forall j :: 0 <= j < |w.jobs| ==> w'.jobs[j].payload == w.jobs[j].payload)
    && (w'.pc.Holding? ==> w'.pc.stage.Started? || w'.pc.stage.Returned? || w'.pc.stage.Settling?
                           || (w'.pc == w.pc && w'.slots == w.slots && w.pc.job < |w.jobs|))
  }

  lemma NothingAsked(w: World, w': World)
    requires Asked(w) && AsksNothing(w, w')
    ensures Asked(w')
  {
  }

  lemma EnvAsked(w: World, e: EnvEvent)
    requires Base(w) && Asked(w) && EnvEnabled(w, e)
    ensures Asked(NextEnv(w, e))
  {
    if e.Crash? { LetGoFrame(w); }
    NothingAsked(w, NextEnv(w, e));
  }

  lemma DispatchAsked(w: World, p: Payload, serverless: bool)
    ensures StageAsked(Dispatch(w, p, serverless), p, w.slots)
  {
  }

  lemma PrepareAsked(w: World, e: PrepareEvent)
    requires Asked(w) && PrepareEnabled(w, e)
    ensures Asked(NextPrepare(w, e))
  {
    match e
    case Start(serverless) => DispatchAsked(w, w.jobs[w.pc.job].payload, serverless);
    case _ =>
  }

  lemma ActAsked(w: World, e: ActEvent)
    requires Asked(w) && ActEnabled(w, e)
    ensures Asked(NextAct(w, e))
  {
    match e
    case ActionAnswer(answer) => assert Asked(OnActionAnswer(w, answer));
    case MarkHandle => assert Asked(OnMarkHandle(w));
    case _ =>
  }

  lemma SettleAsked(w: World, e: SettleEvent)
    requires Base(w) && Asked(w) && SettleEnabled(w, e)
    ensures Asked(NextSettle(w, e))
  {
    if e.WriteRow? {
      if IsDeployment(w.jobs[w.pc.job]) { assert RowMatches(w.jobs[w.pc.job], w.rows); }
      WriteRowFrame(w);
    }
    NothingAsked(w, NextSettle(w, e));
  }

  lemma SweepAsked(w: World, e: SweepEvent)
    requires Asked(w) && SweepEnabled(w, e)
    ensures Asked(NextSweep(w, e))
  {
    NothingAsked(w, NextSweep(w, e));
  }

  lemma StepAsked(w: World, e: Event)
    requires Base(w) && Asked(w) && Enabled(w, e)
    ensures Asked(Next(w, e))
  {
    match e
    case Env(env) => EnvAsked(w, env);
    case Prepare(prepare) => PrepareAsked(w, prepare);
    case Act(act) => ActAsked(w, act);
    case Settled(settle) => SettleAsked(w, settle);
    case Swept(sweep) => SweepAsked(w, sweep);
  }

  lemma {:induction false} RunAsked(states: seq<World>, events: seq<Event>, i: nat)
    requires Run(states, events) && i < |states|
    ensures Asked(states[i])
  {
    if i > 0 {
      RunAsked(states, events, i - 1);
      RunInvariant(states, events, i - 1);
      StepAsked(states[i - 1], events[i - 1]);
    }
  }

  // ---------------------------------------------------------------- which calls are made

  /**
   In every run: deploys only for jobs that ask for one, rollbacks only for jobs that ask
   for one, with their own commit.
   */
  lemma CallsAreAskedFor(states: seq<World>, events: seq<Event>, call: EngineCall)
    requires Run(states, events) && call in Last(states).ledger.made
    ensures call.job < |Last(states).jobs|
    ensures var p := Last(states).jobs[call.job].payload;
            && (call.Deployed? <==> p.action == Create)
            && (call.RolledBack? <==> p.action == Rollback)
            && (call.RolledBack? ==> p.commit.Some? && p.commit.value != "" && call.commit == p.commit.value)
  {
    RunAsked(states, events, |states| - 1);
  }

  /** The engine receives a deploy or rollback call in this step. */
  predicate IsCall(e: Event) {
    e.Act? && (e.act.ActionAnswer? || e.act.ActionThrew? || e.act.ActionLost?)
  }

  /** This step makes this call. */
  predicate Calls(w: World, e: Event, w': World, call: EngineCall) {
    IsCall(e) && w'.ledger.made == w.ledger.made + {call} && w'.ledger.calls == w.ledger.calls + multiset{call.job}
  }

  lemma CallStep(w: World, e: ActEvent)
    requires ActEnabled(w, e) && IsCall(Act(e))
    ensures Calls(w, Act(e), NextAct(w, e), CallAt(w.pc.job, w.pc.stage))
  {
    match e
    case ActionAnswer(answer) => assert Calls(w, Act(e), OnActionAnswer(w, answer), CallAt(w.pc.job, w.pc.stage));
    case _ =>
  }

  /** And each goes to the application its job's slot holds at that moment. */
  lemma CallsGoToTheirSlot(states: seq<World>, events: seq<Event>, i: nat)
    requires Run(states, events) && i < |events| && IsCall(events[i])
    ensures exists call :: Calls(states[i], events[i], states[i + 1], call)
                        && states[i].pc.Holding? && call.job == states[i].pc.job < |states[i].jobs|
                        && CallAsked(call, states[i].jobs[call.job].payload)
                        && Holds(states[i].slots, states[i].jobs[call.job].payload, call.app)
  {
    RunAsked(states, events, i);
    var w, e := states[i], events[i];
    assert Enabled(w, e) && states[i + 1] == Next(w, e);
    CallStep(w, e.act);
    assert Calls(w, e, states[i + 1], CallAt(w.pc.job, w.pc.stage));
  }

  // ---------------------------------------------------------------- what a started job goes on to

  predicate IsThrow(e: Event) {
    e.Act? && e.act.Throw?
  }

  predicate IsBuild(e: Event) {
    e.Prepare? && (e.prepare.BuildAccepted? || e.prepare.BuildRefused?)
  }

  /** The application the job's slot holds, if it holds one. */
  function AppOf(w: World, p: Payload): Option<string> {
    if SlotOf(p) in w.slots && w.slots[SlotOf(p)] != "" then Some(w.slots[SlotOf(p)]) else None
  }

  /**
   What comes after the start of a job, `next` being the worker's next step and `w` the
   state the job is started in: a build in flight is polled by its own handle; a
   rollback is called for with its commit, or reported as having nothing to go back to;
   a deployment is given an application, or an artifact, or is called for.
   */
  predicate StartedWell(w: World, serverless: bool, at: World, next: Event, after: World)
    requires w.pc.Holding? && w.pc.job < |w.jobs|
  {
    var j := w.pc.job;
    var p := w.jobs[j].payload;
    var key := Key(p.organization, p.deploymentId);
    var app := AppOf(w, p);
    if key in w.rows && w.rows[key].status in {Pending, Running} && w.rows[key].handle.Some? then
      next.Act? && next.act.StateAnswer? && next.act.asked == ProviderRef(DeploymentRef, w.rows[key].handle.value)
    else if p.action == Rollback then
      if app.Some? && p.commit.Some? && p.commit.value != ""
      then Calls(at, next, after, RolledBack(j, app.value, p.commit.value))
      else
        && next == Settled(Decide) && at.pc.Holding? && at.pc.stage.Returned? && at.ledger == w.ledger
        && at.pc.stage.execution == ExecutionResult(NotConfigured, None, app, None, None, Some(NOTHING_TO_ROLL_BACK))
    else if app.None? then next.Prepare? && next.prepare.EnsureAnswer?
    else if serverless && !(p.kind == Preview && p.previewKey.Some?) then IsBuild(next)
    else Calls(at, next, after, Deployed(j, app.value, None))
  }

  lemma StartedAfter(w: World, serverless: bool, at: World, next: Event)
    requires PrepareEnabled(w, Start(serverless)) && Kept(NextPrepare(w, Start(serverless)), at)
    requires Enabled(at, next) && !next.Env?
    ensures IsThrow(next) || StartedWell(w, serverless, at, next, Next(at, next))
  {
    var p := w.jobs[w.pc.job].payload;
    if Pollable(w.rows, DeploymentOf(p)) {
      PollAfter(w, serverless, at, next);
    } else if p.action == Rollback {
      RollbackAfter(w, serverless, at, next);
    } else {
      CreateAfter(w, serverless, at, next);
    }
  }

  lemma PollAfter(w: World, serverless: bool, at: World, next: Event)
    requires PrepareEnabled(w, Start(serverless)) && Kept(NextPrepare(w, Start(serverless)), at)
    requires Enabled(at, next) && !next.Env? && Pollable(w.rows, DeploymentOf(w.jobs[w.pc.job].payload))
    ensures IsThrow(next) || StartedWell(w, serverless, at, next, Next(at, next))
  {
  }

  lemma RollbackAfter(w: World, serverless: bool, at: World, next: Event)
    requires PrepareEnabled(w, Start(serverless)) && Kept(NextPrepare(w, Start(serverless)), at)
    requires Enabled(at, next) && !next.Env? && !Pollable(w.rows, DeploymentOf(w.jobs[w.pc.job].payload))
    requires w.jobs[w.pc.job].payload.action == Rollback
    ensures IsThrow(next) || StartedWell(w, serverless, at, next, Next(at, next))
  {
    if IsCall(next) { CallStep(at, next.act); }
  }

  lemma CreateAfter(w: World, serverless: bool, at: World, next: Event)
    requires PrepareEnabled(w, Start(serverless)) && Kept(NextPrepare(w, Start(serverless)), at)
    requires Enabled(at, next) && !next.Env? && !Pollable(w.rows, DeploymentOf(w.jobs[w.pc.job].payload))
    requires w.jobs[w.pc.job].payload.action == Create
    ensures IsThrow(next) || StartedWell(w, serverless, at, next, Next(at, next))
  {
    if IsCall(next) { CallStep(at, next.act); }
  }

  /** Every started job goes on to what it asks for, unless the handler throws there. */
  lemma StartedJobActs(states: seq<World>, events: seq<Event>, i: nat, k: nat)
    requires Run(states, events) && NextStep(events, i, k) && events[i].Prepare? && events[i].prepare.Start?
    ensures states[i].pc.Holding? && states[i].pc.job < |states[i].jobs|
    ensures IsThrow(events[k])
         || StartedWell(states[i], events[i].prepare.serverless, states[k], events[k], states[k + 1])
  {
    StepThenKept(states, events, i, k);
    StartedAfter(states[i], events[i].prepare.serverless, states[k], events[k]);
  }

  /**
   What comes after the engine has answered for the application: it is remembered in the
   job's slot, or its refusal reported.
   */
  predicate EnsuredWell(w: World, answer: AdapterResult<ProviderRef>, at: World, next: Event, after: World)
    requires w.pc.Holding? && w.pc.job < |w.jobs|
  {
    match answer
    case Ok(_, ref) =>
      next == Prepare(BindSlot) && after.slots == at.slots[SlotOf(w.jobs[w.pc.job].payload) := ref.id]
    case Err(status, reason) =>
      && next == Settled(Decide) && at.pc.Holding? && at.pc.stage.Returned?
      && at.pc.stage.execution == ExecutionResult(status, None, None, None, None, Some(reason))
  }

  lemma EnsuredAfter(w: World, answer: AdapterResult<ProviderRef>, at: World, next: Event)
    requires PrepareEnabled(w, EnsureAnswer(answer)) && Kept(OnEnsureAnswer(w, answer), at)
    requires Enabled(at, next) && !next.Env?
    ensures IsThrow(next) || EnsuredWell(w, answer, at, next, Next(at, next))
  {
  }

  lemma EnsuredTargetIsRemembered(states: seq<World>, events: seq<Event>, i: nat, k: nat)
    requires Run(states, events) && NextStep(events, i, k) && events[i].Prepare? && events[i].prepare.EnsureAnswer?
    ensures states[i].pc.Holding? && states[i].pc.job < |states[i].jobs|
    ensures IsThrow(events[k])
         || EnsuredWell(states[i], events[i].prepare.ensured, states[k], events[k], states[k + 1])
  {
    StepThenKept(states, events, i, k);
    EnsuredAfter(states[i], events[i].prepare.ensured, states[k], events[k]);
  }

  /**
   What comes after the slot has been written: an artifact for a function, otherwise the
   deploy, on the application the slot then holds.
   */
  predicate BoundWell(w: World, bound: World, at: World, next: Event, after: World)
    requires w.pc.Holding? && w.pc.job < |w.jobs| && w.pc.stage.Recording?
  {
    var slot := SlotOf(w.jobs[w.pc.job].payload);
    && slot in bound.slots
    && if w.pc.stage.serverless then IsBuild(next)
       else Calls(at, next, after, Deployed(w.pc.job, bound.slots[slot], None))
  }

  lemma BoundTargetIsDeployed(states: seq<World>, events: seq<Event>, i: nat, k: nat)
    requires Run(states, events) && NextStep(events, i, k) && events[i] == Prepare(BindSlot)
    ensures states[i].pc.Holding? && states[i].pc.job < |states[i].jobs| && states[i].pc.stage.Recording?
    ensures IsThrow(events[k]) || BoundWell(states[i], states[i + 1], states[k], events[k], states[k + 1])
  {
    StepThenKept(states, events, i, k);
    BoundAfter(states[i], states[k], events[k]);
  }

  lemma BoundAfter(w: World, at: World, next: Event)
    requires PrepareEnabled(w, BindSlot) && Kept(OnBindSlot(w), at) && Enabled(at, next) && !next.Env?
    ensures IsThrow(next) || BoundWell(w, OnBindSlot(w), at, next, Next(at, next))
  {
    if IsCall(next) { CallStep(at, next.act); }
  }

  // ---------------------------------------------------------------- the artifact

  /**
   What comes after a step of the build: its handle is put on the row, which then says
   running; the artifact is waited for; and the deploy is called for with that build. A
   build that is refused is reported as failed, and nothing is deployed.
   */
  predicate BuiltWell(w: World, e: PrepareEvent, at: World, next: Event, after: World)
    requires AtStage(w)
  {
    match e
    case BuildAccepted(build) =>
      && next == Prepare(MarkBuild)
      && (RowKey(w.jobs[w.pc.job]) in at.rows ==>
            after.rows == at.rows[RowKey(w.jobs[w.pc.job]) :=
              at.rows[RowKey(w.jobs[w.pc.job])].(status := Running, build := Some(build))])
    case MarkBuild =>
      w.pc.stage.MarkingBuild? && next.Prepare? && (next.prepare.ArtifactReady? || next.prepare.BuildRefused?)
    case ArtifactReady =>
      && w.pc.stage.AwaitingArtifact?
      && Calls(at, next, after, Deployed(w.pc.job, w.pc.stage.target, Some(w.pc.stage.build)))
    case BuildRefused(reason) =>
      && (w.pc.stage.Building? || w.pc.stage.AwaitingArtifact?)
      && next == Settled(Decide) && at.pc.Holding? && at.pc.stage.Returned?
      && at.pc.stage.execution == ExecutionResult(Failed, None, Some(w.pc.stage.target), None, None, Some(reason))
    case _ => false
  }

  lemma BuiltAfter(w: World, e: PrepareEvent, at: World, next: Event)
    requires PrepareEnabled(w, e) && (e.BuildAccepted? || e.MarkBuild? || e.ArtifactReady? || e.BuildRefused?)
    requires Kept(NextPrepare(w, e), at) && Enabled(at, next) && !next.Env?
    ensures IsThrow(next) || BuiltWell(w, e, at, next, Next(at, next))
  {
    if IsCall(next) { CallStep(at, next.act); }
  }

  lemma BuildComesBeforeTheDeploy(states: seq<World>, events: seq<Event>, i: nat, k: nat)
    requires Run(states, events) && NextStep(events, i, k) && events[i].Prepare?
    requires var e := events[i].prepare; e.BuildAccepted? || e.MarkBuild? || e.ArtifactReady? || e.BuildRefused?
    ensures AtStage(states[i])
    ensures IsThrow(events[k]) || BuiltWell(states[i], events[i].prepare, states[k], events[k], states[k + 1])
  {
    StepThenKept(states, events, i, k);
    BuiltAfter(states[i], events[i].prepare, states[k], events[k]);
  }

  /** The builder accepts nothing for a project without a repository. */
  lemma NothingIsBuiltWithoutARepository(states: seq<World>, events: seq<Event>, i: nat)
    requires Run(states, events) && i < |events| && events[i].Prepare? && events[i].prepare.BuildAccepted?
    ensures AtStage(states[i])
    ensures states[i].jobs[states[i].pc.job].payload.repository.Some?
    ensures states[i].jobs[states[i].pc.job].payload.repository.value != ""
  {
    assert Enabled(states[i], events[i]);
  }

  // ---------------------------------------------------------------- the answer to the call

  /**
   The application accepted work is recorded under: the one deployed to, and for a
   rollback what the engine answered with.
   */
  function Resolved(call: EngineCall, ref: ProviderRef): string {
    if call.Deployed? then call.app else ref.id
  }

  /** The application a refusal is reported with. */
  function AppGiven(call: EngineCall): Option<string> {
    if call.Deployed? then Some(call.app) else None
  }

  /** The build an answer is reported with. */
  function BuildOf(call: EngineCall): Option<string> {
    if call.Deployed? then call.build else None
  }

  /**
   What comes after the engine has answered a call: work accepted under a handle is
   recorded on the row with that handle, the application and the status it was accepted
   with; other accepted work is read back at once by the reference it was answered
   with; and a refusal is reported as it is.
   */
  predicate AnsweredWell(w: World, call: EngineCall, answer: AdapterResult<ProviderRef>, at: World, next: Event,
                         after: World)
    requires AtStage(w)
  {
    match answer
    case Ok(status, ref) =>
      if ref.resourceType == DeploymentRef then
        && next == Act(MarkHandle)
        && (RowKey(w.jobs[w.pc.job]) in at.rows ==>
              after.rows == at.rows[RowKey(w.jobs[w.pc.job]) :=
                at.rows[RowKey(w.jobs[w.pc.job])]
                .(status := status, app := Some(Resolved(call, ref)), handle := Some(ref.id))])
      else next.Act? && next.act.StateAnswer? && next.act.asked == ref
    case Err(status, reason) =>
      && next == Settled(Decide) && at.pc.Holding? && at.pc.stage.Returned?
      && at.pc.stage.execution
           == ExecutionResult(status, None, AppGiven(call), None, BuildOf(call), Some(reason))
  }

  lemma AnsweredAfter(w: World, answer: AdapterResult<ProviderRef>, at: World, next: Event)
    requires ActEnabled(w, ActionAnswer(answer)) && Kept(OnActionAnswer(w, answer), at)
    requires Enabled(at, next) && !next.Env?
    ensures IsThrow(next) || AnsweredWell(w, CallAt(w.pc.job, w.pc.stage), answer, at, next, Next(at, next))
  {
  }

  lemma AnswersAreFollowed(states: seq<World>, events: seq<Event>, i: nat, k: nat)
    requires Run(states, events) && NextStep(events, i, k) && events[i].Act? && events[i].act.ActionAnswer?
    ensures AtStage(states[i])
    ensures exists call ::
              && Calls(states[i], events[i], states[i + 1], call) && call.job == states[i].pc.job
              && (IsThrow(events[k])
                  || AnsweredWell(states[i], call, events[i].act.action, states[k], events[k], states[k + 1]))
  {
    StepThenKept(states, events, i, k);
    CallStep(states[i], events[i].act);
    AnsweredAfter(states[i], events[i].act.action, states[k], events[k]);
    assert Calls(states[i], events[i], states[i + 1], CallAt(states[i].pc.job, states[i].pc.stage));
  }

  /** What comes after the handle has been recorded: the state is read by the reference the action was answered with. */
  lemma MarkedWorkIsReadBack(states: seq<World>, events: seq<Event>, i: nat, k: nat)
    requires Run(states, events) && NextStep(events, i, k) && events[i] == Act(MarkHandle)
    ensures states[i].pc.Holding? && states[i].pc.stage.Marking?
    ensures IsThrow(events[k])
         || (events[k].Act? && events[k].act.StateAnswer? && events[k].act.asked == states[i].pc.stage.ref)
  {
    StepThenKept(states, events, i, k);
  }
}
