/**
 The worker's program: the executor, the processor, the applier and the sweep.

 Every engine call and store write is a method that may answer, throw or never
 return because the process died there. Each notes the protocol step it is, and can
 be made only where the protocol allows that step. So whatever the engine answers
 and wherever the process dies, the control plane is always in a state of some run
 of the protocol, and the protocol's promises hold of it.
 */
module Worker {
  import opened Contracts
  import opened Queue
  import opened InMemoryQueue
  import opened Deployments
  import opened Reconcile
  import opened Protocol
  import opened ProtocolBase
  import opened ProtocolSuccess
  import opened ProtocolHistory
  import opened ProtocolRuns
  import opened ProtocolExact

  /** How a call that leaves the process comes back: an answer, an exception, or never. */
  datatype Attempt<+T> = Completed(value: T) | Threw(reason: string) | Died {
    predicate IsFailure() {
      !Completed?
    }

    function PropagateFailure<U>(): Attempt<U>
      requires IsFailure()
    {
      if Threw? then Threw(reason) else Died
    }

    function Extract(): T
      requires !IsFailure()
    {
      value
    }
  }

  /** Why a call brought no answer. */
  datatype Fault = ByThrow(reason: string) | ByDeath

  function Fails<T>(fault: Fault): Attempt<T> {
    match fault
    case ByThrow(reason) => Threw(reason)
    case ByDeath => Died
  }

  function FaultOf<T>(a: Attempt<T>): Fault
    requires !a.Completed?
  {
    if a.Threw? then ByThrow(a.reason) else ByDeath
  }

  datatype JobOutcome = JobOutcome(job: nat, kind: string, status: EngineStatus, applied: bool, reason: Option<string>)

  const NOTHING_TO_BUILD: string := "This project has no git repository, so there is nothing to build."

  /** The events lead from a start to this state. */
  ghost predicate Leads(events: seq<Event>, w: World) {
    exists states :: Run(states, events) && Last(states) == w
  }

  lemma LeadsOn(events: seq<Event>, w: World, e: Event)
    requires Leads(events, w) && Enabled(w, e)
    ensures Leads(events + [e], Next(w, e))
  {
    var states :| Run(states, events) && Last(states) == w;
    var longer := states + [Next(w, e)];
    forall i | 0 <= i < |events| + 1
      ensures Enabled(longer[i], (events + [e])[i]) && longer[i + 1] == Next(longer[i], (events + [e])[i])
    {
      if i < |events| {
        assert longer[i] == states[i] && longer[i + 1] == states[i + 1];
      }
    }
    assert Run(longer, events + [e]) && Last(longer) == Next(w, e);
  }

  /** Whatever the program has reached keeps every promise of the protocol. */
  lemma LeadsKeeps(events: seq<Event>, w: World)
    requires Leads(events, w)
    ensures Invariant(w)
  {
    var states :| Run(states, events) && Last(states) == w;
    RunInvariant(states, events, |states| - 1);
  }

  class ControlPlane {
    const cfg: Config
    const queue: InMemoryJobQueue<Payload>
    var now: nat
    var rows: map<Key, Row>
    var slots: map<Slot, string>
    var live: map<Key, Key>
    var usage: seq<Key>
    ghost var w: World            // the protocol state the program is in
    ghost var events: seq<Event>  // the steps that led there

    /** The queue holds the jobs of the protocol state the program is in. */
    ghost predicate Valid()
      reads this, queue, queue.Repr
    {
      queue.Valid() && this !in queue.Repr && w.jobs == queue.Jobs() && Known()
    }

    /** The stored fields are those of a protocol state that some run leads to. */
    ghost predicate Known()
      reads this
    {
      && Leads(events, w)
      && w.cfg == cfg && w.now == now && w.rows == rows && w.slots == slots && w.live == live
      && w.usage == multiset(usage)
    }

    /** Some steps on: the jobs, the pointer and the usage have not moved, and nothing has been claimed. */
    twostate predicate HandlerMoved()
      reads this
    {
      && Known() && old(events) <= events && w.jobs == old(w.jobs) && w.ledger.claims == old(w.ledger.claims)
      && live == old(live) && usage == old(usage) && now == old(now)
    }

    constructor (cfg: Config, start: nat)
      ensures Valid() && w.pc.Idle? && w.jobs == [] && rows == map[] && slots == map[] && live == map[] && usage == []
      ensures fresh(queue) && fresh(queue.Repr) && this.cfg == cfg && now == start
    {
      this.cfg := cfg;
      queue := new InMemoryJobQueue<Payload>();
      now, rows, slots, live, usage := start, map[], map[], map[], [];
      w := World(cfg, start, [], map[], map[], map[], multiset{}, Idle, EMPTY_LEDGER);
      events := [];
      new;
      assert Run([w], []) && Last([w]) == w;
    }

    /** Note a protocol step. */
    ghost method Take(e: Event)
      requires Leads(events, w) && Enabled(w, e)
      modifies this`w, this`events
      ensures w == Next(old(w), e) && events == old(events) + [e] && Leads(events, w)
    {
      LeadsOn(events, w, e);
      w := Next(w, e);
      events := events + [e];
    }

    /** Read the clock. Time has passed since it was last read. */
    method Clock() returns (t: nat)
      requires Known()
      modifies this`now, this`w, this`events
      ensures Known() && t == now >= old(now) && old(events) <= events
      ensures w == old(w).(now := now)
    {
      var elapsed: nat :| true;
      now := now + elapsed;
      Take(Env(Advance(elapsed)));
      t := now;
    }

    // -------------------------------------------------------------- the handler's calls

    /** The handler throws. */
    ghost method NoteThrow(reason: string)
      requires Known() && AtStage(w) && InHandler(w.pc.stage)
      modifies this`w, this`events
      ensures Known() && w == OnThrow(old(w), HasCalled(old(w).pc.stage), reason)
      ensures events == old(events) + [Act(Throw(reason))]
    {
      Take(Act(Throw(reason)));
    }

    /** The process dies. */
    ghost method NoteCrash()
      requires Known()
      modifies this`w, this`events
      ensures Known() && w == LetGo(old(w)) && events == old(events) + [Env(Crash)]
    {
      Take(Env(Crash));
    }

    /** The handler was broken off: its job will be failed if it threw, and waits for its lease if the process died. */
    twostate predicate Broken(fault: Fault)
      reads this
    {
      && HandlerMoved() && AtStage(old(w))
      && match fault
         case ByThrow(reason) =>
           exists called, at ::
             w.pc == Holding(old(w).pc.job, Settling(called, FailWrite(reason), Err(Failed, reason), at))
         case ByDeath => w.pc.Idle?
    }

    method Break() returns (fault: Fault)
      requires Known() && AtStage(w) && InHandler(w.pc.stage)
      modifies this`w, this`events
      ensures Broken(fault) && rows == old(rows) && slots == old(slots)
    {
      if * {
        var reason: string := *;
        NoteThrow(reason);
        return ByThrow(reason);
      } else {
        NoteCrash();
        return ByDeath;
      }
    }

    /** A read of the handler's. */
    method Reach() returns (a: Attempt<()>)
      requires Known() && AtStage(w) && InHandler(w.pc.stage)
      modifies this`w, this`events
      ensures if a.Completed? then w == old(w) && events == old(events) && Known() else Broken(FaultOf(a))
      ensures rows == old(rows) && slots == old(slots)
    {
      if * {
        return Completed(());
      }
      var fault := Break();
      a := Fails(fault);
    }

    /** Ask the engine for the project's target. */
    method EnsureTarget() returns (a: Attempt<AdapterResult<ProviderRef>>)
      requires Known() && AtStage(w) && w.pc.stage.Ensuring?
      modifies this`w, this`events
      ensures HandlerMoved() && rows == old(rows) && slots == old(slots)
      ensures if a.Completed? then w == OnEnsureAnswer(old(w), a.value) else Broken(FaultOf(a))
    {
      if * {
        var answer: AdapterResult<ProviderRef> := *;
        Take(Prepare(EnsureAnswer(answer)));
        return Completed(answer);
      }
      var fault := Break();
      a := Fails(fault);
    }

    /** Remember the engine's application in the job's slot. */
    method SetSlot(slot: Slot, app: string) returns (a: Attempt<()>)
      requires Known() && AtStage(w) && w.pc.stage.Recording?
      requires slot == SlotOf(w.jobs[w.pc.job].payload) && app == w.pc.stage.target
      modifies this`slots, this`w, this`events
      ensures HandlerMoved() && rows == old(rows)
      ensures if a.Completed? then w == OnBindSlot(old(w)) && slots == old(slots)[slot := app] else Broken(FaultOf(a))
    {
      if * {
        slots := slots[slot := app];
        Take(Prepare(BindSlot));
        if * { return Completed(()); }
      }
      var fault := Break();
      a := Fails(fault);
    }

    /** Ask the builder to build. */
    method StartBuild() returns (a: Attempt<AdapterResult<string>>)
      requires Known() && AtStage(w) && w.pc.stage.Building? && Present(w.jobs[w.pc.job].payload.repository)
      modifies this`w, this`events
      ensures HandlerMoved() && rows == old(rows) && slots == old(slots)
      ensures if !a.Completed? then Broken(FaultOf(a))
              else if a.value.Ok? then w == ToStage(old(w), MarkingBuild(old(w).pc.stage.target, a.value.value))
              else w == NextPrepare(old(w), BuildRefused(a.value.reason))
    {
      if * {
        var build: string := *;
        Take(Prepare(BuildAccepted(build)));
        return Completed(Ok(Running, build));
      } else if * {
        var reason: string := *;
        Take(Prepare(BuildRefused(reason)));
        return Completed(Err(Failed, reason));
      }
      var fault := Break();
      a := Fails(fault);
    }

    method WriteBuildHandle(key: Key, build: string)
      requires Known() && AtStage(w) && w.pc.stage.MarkingBuild?
      requires key == RowKey(w.jobs[w.pc.job]) && build == w.pc.stage.build
      modifies this`rows, this`w, this`events
      ensures HandlerMoved() && w == OnMarkBuild(old(w))
    {
      if key in rows {
        rows := rows[key := MarkRowBuild(rows[key], build)];
      }
      Take(Prepare(MarkBuild));
    }

    /** Record the builder's handle on the row while the build runs. */
    method MarkDeploymentBuildHandle(key: Key, build: string) returns (a: Attempt<()>)
      requires Known() && AtStage(w) && w.pc.stage.MarkingBuild?
      requires key == RowKey(w.jobs[w.pc.job]) && build == w.pc.stage.build
      modifies this`rows, this`w, this`events
      ensures HandlerMoved() && slots == old(slots)
      ensures if a.Completed? then w == OnMarkBuild(old(w)) else Broken(FaultOf(a))
    {
      if * {
        WriteBuildHandle(key, build);
        if * { return Completed(()); }
      }
      var fault := Break();
      a := Fails(fault);
    }

    /** Wait for the builder's artifact. */
    method AwaitArtifact() returns (a: Attempt<AdapterResult<()>>)
      requires Known() && AtStage(w) && w.pc.stage.AwaitingArtifact?
      modifies this`w, this`events
      ensures HandlerMoved() && rows == old(rows) && slots == old(slots)
      ensures if !a.Completed? then Broken(FaultOf(a))
              else if a.value.Ok?
              then w == ToStage(old(w), Deploying(old(w).pc.stage.target, Some(old(w).pc.stage.build)))
              else w == NextPrepare(old(w), BuildRefused(a.value.reason))
    {
      if * {
        Take(Prepare(ArtifactReady));
        return Completed(Ok(Succeeded, ()));
      } else if * {
        var reason: string := *;
        Take(Prepare(BuildRefused(reason)));
        return Completed(Err(Failed, reason));
      }
      var fault := Break();
      a := Fails(fault);
    }

    /** The engine received a deploy or rollback call, but no answer came back. */
    method BreakCall() returns (fault: Fault)
      requires Known() && AtAction(w)
      modifies this`w, this`events
      ensures Broken(fault) && rows == old(rows) && slots == old(slots)
    {
      if * {
        var reason: string := *;
        Take(Act(ActionThrew(reason)));
        return ByThrow(reason);
      } else {
        Take(Act(ActionLost));
        return ByDeath;
      }
    }

    /** Ask the engine to deploy. It may have received the call even when no answer comes back. */
    method Deploy(app: string, artifact: Option<string>) returns (a: Attempt<AdapterResult<ProviderRef>>)
      requires Known() && AtStage(w) && w.pc.stage == Deploying(app, artifact)
      modifies this`w, this`events
      ensures HandlerMoved() && rows == old(rows) && slots == old(slots)
      ensures if a.Completed? then w == OnActionAnswer(old(w), a.value) else Broken(FaultOf(a))
    {
      a := CallEngine();
    }

    /** Ask the engine to go back to a revision it has built. */
    method RollBack(app: string, commit: string) returns (a: Attempt<AdapterResult<ProviderRef>>)
      requires Known() && AtStage(w) && w.pc.stage == RollingBack(app, commit)
      modifies this`w, this`events
      ensures HandlerMoved() && rows == old(rows) && slots == old(slots)
      ensures if a.Completed? then w == OnActionAnswer(old(w), a.value) else Broken(FaultOf(a))
    {
      a := CallEngine();
    }

    method CallEngine() returns (a: Attempt<AdapterResult<ProviderRef>>)
      requires Known() && AtAction(w)
      modifies this`w, this`events
      ensures HandlerMoved() && rows == old(rows) && slots == old(slots)
      ensures if a.Completed? then w == OnActionAnswer(old(w), a.value) else Broken(FaultOf(a))
    {
      if * {
        var answer: AdapterResult<ProviderRef> := *;
        Take(Act(ActionAnswer(answer)));
        return Completed(answer);
      } else if * {
        var lost := BreakCall();
        return Fails(lost);
      }
      var fault := Break();
      a := Fails(fault);
    }

    method WriteHandle(key: Key, status: EngineStatus, app: Option<string>, handle: Option<string>)
      requires Known() && AtStage(w) && w.pc.stage.Marking? && key == RowKey(w.jobs[w.pc.job])
      requires status == w.pc.stage.accepted && app == Some(w.pc.stage.resolved) && handle == HandleOf(w.pc.stage.ref)
      modifies this`rows, this`w, this`events
      ensures HandlerMoved() && w == OnMarkHandle(old(w))
    {
      if key in rows {
        rows := rows[key := MarkRow(rows[key], status, app, handle)];
      }
      Take(Act(MarkHandle));
    }

    /** Persist the engine's own handle before its state is read back. */
    method MarkDeploymentInFlight(key: Key, status: EngineStatus, app: Option<string>, handle: Option<string>)
      returns (a: Attempt<()>)
      requires Known() && AtStage(w) && w.pc.stage.Marking? && key == RowKey(w.jobs[w.pc.job])
      requires status == w.pc.stage.accepted && app == Some(w.pc.stage.resolved) && handle == HandleOf(w.pc.stage.ref)
      modifies this`rows, this`w, this`events
      ensures HandlerMoved() && slots == old(slots)
      ensures if a.Completed? then w == OnMarkHandle(old(w)) else Broken(FaultOf(a))
    {
      if * {
        WriteHandle(key, status, app, handle);
        if * { return Completed(()); }
      }
      var fault := Break();
      a := Fails(fault);
    }

    /** Read a build's state from the engine. */
    method GetDeployment(ref: ProviderRef) returns (a: Attempt<AdapterResult<DeploymentState>>)
      requires Known() && AtStage(w) && (w.pc.stage.Polling? || w.pc.stage.Reading?) && ref == StateRef(w.pc.stage)
      modifies this`w, this`events
      ensures HandlerMoved() && rows == old(rows) && slots == old(slots)
      ensures if a.Completed? then w == OnStateAnswer(old(w), a.value) else Broken(FaultOf(a))
    {
      if * {
        var answer: AdapterResult<DeploymentState> := *;
        Take(Act(StateAnswer(ref, answer)));
        return Completed(answer);
      }
      var fault := Break();
      a := Fails(fault);
    }

    // -------------------------------------------------------------- the executor

    /** The handler has come back: with a result, with an exception, or not at all because the process died. */
    twostate predicate Reported(new a: Attempt<ExecutionResult>, called: bool)
      reads this
    {
      && HandlerMoved() && AtStage(old(w))
      && if a.Completed? then w.pc == Holding(old(w).pc.job, Returned(called, a.value)) else Broken(FaultOf(a))
    }

    /** Read the engine's own state back: its answer is what the caller persists. */
    method ReadBack(accepted: EngineStatus, app: string, ref: ProviderRef, build: Option<string>)
      returns (r: Attempt<ExecutionResult>)
      requires Known() && AtStage(w) && w.pc.stage == Reading(accepted, app, ref, build)
      modifies this`w, this`events
      ensures Reported(r, true) && rows == old(rows) && slots == old(slots)
    {
      var status := accepted;
      var url: Option<string> := None;
      var reason: Option<string> := None;
      var state :- GetDeployment(ref);
      if state.Ok? {
        status := state.value.status;
        url := state.value.url;
        if status != Succeeded && status != Running && status != Pending {
          reason := state.value.reason;
        }
      }
      return Completed(ExecutionResult(status, url, Some(app), HandleOf(ref), build, reason));
    }

    /** Turn an action's answer into a result: a refusal at once, accepted work by its handle and then its state. */
    method Confirm(key: Key, action: AdapterResult<ProviderRef>, providerResourceId: Option<string>,
                   build: Option<string>)
      returns (r: Attempt<ExecutionResult>)
      requires Known() && AtStage(w) && key == RowKey(w.jobs[w.pc.job])
      requires match action
               case Err(status, reason) =>
                 w.pc.stage
                   == Returned(true, ExecutionResult(status, None, providerResourceId, None, build, Some(reason)))
               case Ok(status, ref) =>
                 var resolved := if providerResourceId.Some? then providerResourceId.value else ref.id;
                 w.pc.stage ==
                   if HandleOf(ref).Some? then Marking(status, resolved, ref, build)
                   else Reading(status, resolved, ref, build)
      modifies this`rows, this`w, this`events
      ensures Reported(r, true) && slots == old(slots)
    {
      if action.Err? {
        return Completed(ExecutionResult(action.status, None, providerResourceId, None, build, Some(action.reason)));
      }
      var ref := action.value;
      var resolvedId := if providerResourceId.Some? then providerResourceId.value else ref.id;
      var deploymentResourceId := if ref.resourceType == DeploymentRef then Some(ref.id) else None;
      if deploymentResourceId.Some? {
        var _ :- MarkDeploymentInFlight(key, action.status, Some(resolvedId), deploymentResourceId);
      }
      r := ReadBack(action.status, resolvedId, ref, build);
    }

    /** Poll a deploy the engine already accepted, or report that there is none to poll. */
    method ResumeRunningDeployment(key: Key, ghost p: Payload, ghost serverless: bool)
      returns (r: Attempt<Option<ExecutionResult>>)
      requires Known() && AtStage(w) && w.pc.stage == Dispatch(w, p, serverless) && key == DeploymentOf(p)
      modifies this`w, this`events
      ensures rows == old(rows) && slots == old(slots)
      ensures match r
              case Completed(None) =>
                w == old(w) && events == old(events) && Known() && !(key in rows && RowInFlight(rows[key]))
              case Completed(Some(x)) => Reported(Completed(x), false)
              case _ => Broken(FaultOf(r))
    {
      if key !in rows { return Completed(None); }
      var stored := rows[key];
      if stored.handle.None? { return Completed(None); }
      var handle := stored.handle.value;
      if stored.status != Running && stored.status != Pending { return Completed(None); }
      var state :- GetDeployment(ProviderRef(DeploymentRef, handle));
      match state
      case Err(status, reason) =>
        return Completed(Some(ExecutionResult(status, None, stored.app, Some(handle), None, Some(reason))));
      case Ok(_, value) =>
        return Completed(Some(ExecutionResult(value.status, value.url, stored.app, Some(handle), None, value.reason)));
    }

    /**
     Return to a revision the engine already built. Without an application or a commit
     there is nothing to roll back.
     */
    method RollbackDeployment(key: Key, input: Payload, application: Option<string>)
      returns (r: Attempt<ExecutionResult>, ghost called: bool)
      requires Known() && AtStage(w) && key == RowKey(w.jobs[w.pc.job])
      requires if application.None? || !Present(input.commit)
               then w.pc.stage
                      == Returned(false, ExecutionResult(NotConfigured, None, application, None, None,
                                                         Some(NOTHING_TO_ROLL_BACK)))
               else w.pc.stage == RollingBack(application.value, input.commit.value)
      modifies this`rows, this`w, this`events
      ensures Reported(r, called) && slots == old(slots)
    {
      if application.None? || !Present(input.commit) {
        called := false;
        r := Completed(ExecutionResult(NotConfigured, None, application, None, None, Some(NOTHING_TO_ROLL_BACK)));
        return;
      }
      called := true;
      var result :- RollBack(application.value, input.commit.value);
      r := Confirm(key, result, None, None);
    }

    /** Create the application if the slot has none, and remember it there. */
    method EnsureApplication(slot: Slot, serverless: bool, application: Option<string>)
      returns (r: Attempt<AdapterResult<string>>)
      requires Known() && AtStage(w) && slot == SlotOf(w.jobs[w.pc.job].payload)
      requires w.pc.stage ==
                 if application.None? then Ensuring(serverless) else AfterTarget(serverless, application.value)
      modifies this`slots, this`w, this`events
      ensures HandlerMoved() && rows == old(rows)
      ensures match r
              case Completed(Ok(_, app)) => w.pc == Holding(old(w).pc.job, AfterTarget(serverless, app))
              case Completed(Err(status, reason)) =>
                w.pc == Holding(old(w).pc.job,
                                Returned(false, ExecutionResult(status, None, None, None, None, Some(reason))))
              case _ => Broken(FaultOf(r))
    {
      if application.Some? { return Completed(Ok(Succeeded, application.value)); }
      var created :- EnsureTarget();
      match created
      case Err(status, reason) => return Completed(Err(status, reason));
      case Ok(_, ref) =>
        var _ :- SetSlot(slot, ref.id);
        return Completed(Ok(Succeeded, ref.id));
    }

    /** Build an artifact on the builder, recording its handle while it runs. */
    method BuildArtifact(key: Key, input: Payload, application: string) returns (r: Attempt<AdapterResult<string>>)
      requires Known() && AtStage(w) && w.pc.stage == Building(application)
      requires key == RowKey(w.jobs[w.pc.job]) && input == w.jobs[w.pc.job].payload
      modifies this`rows, this`w, this`events
      ensures HandlerMoved() && slots == old(slots)
      ensures match r
              case Completed(Ok(_, build)) => w.pc == Holding(old(w).pc.job, Deploying(application, Some(build)))
              case Completed(Err(_, reason)) =>
                w.pc == Holding(old(w).pc.job,
                                Returned(false,
                                         ExecutionResult(Failed, None, Some(application), None, None, Some(reason))))
              case _ => Broken(FaultOf(r))
    {
      if !Present(input.repository) {
        Take(Prepare(BuildRefused(NOTHING_TO_BUILD)));
        return Completed(Err(Failed, NOTHING_TO_BUILD));
      }
      r := RunBuild(key, application);
    }

    method RunBuild(key: Key, ghost application: string) returns (r: Attempt<AdapterResult<string>>)
      requires Known() && AtStage(w) && w.pc.stage == Building(application)
      requires key == RowKey(w.jobs[w.pc.job]) && Present(w.jobs[w.pc.job].payload.repository)
      modifies this`rows, this`w, this`events
      ensures HandlerMoved() && slots == old(slots)
      ensures match r
              case Completed(Ok(_, build)) => w.pc == Holding(old(w).pc.job, Deploying(application, Some(build)))
              case Completed(Err(_, reason)) =>
                w.pc == Holding(old(w).pc.job,
                                Returned(false,
                                         ExecutionResult(Failed, None, Some(application), None, None, Some(reason))))
              case _ => Broken(FaultOf(r))
    {
      var started :- StartBuild();
      if started.Err? { return Completed(started); }
      r := FinishBuild(key, application, started.value);
    }

    /** Record the build's handle, and wait for its artifact. */
    method FinishBuild(key: Key, ghost application: string, build: string) returns (r: Attempt<AdapterResult<string>>)
      requires Known() && AtStage(w) && w.pc.stage == MarkingBuild(application, build)
      requires key == RowKey(w.jobs[w.pc.job])
      modifies this`rows, this`w, this`events
      ensures HandlerMoved() && slots == old(slots)
      ensures match r
              case Completed(Ok(_, built)) =>
                built == build && w.pc == Holding(old(w).pc.job, Deploying(application, Some(build)))
              case Completed(Err(_, reason)) =>
                w.pc == Holding(old(w).pc.job,
                                Returned(false,
                                         ExecutionResult(Failed, None, Some(application), None, None, Some(reason))))
              case _ => Broken(FaultOf(r))
    {
      var _ :- MarkDeploymentBuildHandle(key, build);
      var artifact :- AwaitArtifact();
      if artifact.Err? { return Completed(Err(Failed, artifact.reason)); }
      return Completed(Ok(Running, build));
    }

    /** Create the target if there is none, build where the engine needs an artifact, then deploy. */
    method CreateDeployment(key: Key, input: Payload, serverless: bool, application: Option<string>)
      returns (r: Attempt<ExecutionResult>, ghost called: bool)
      requires Known() && AtStage(w) && key == RowKey(w.jobs[w.pc.job]) && input == w.jobs[w.pc.job].payload
      requires w.pc.stage ==
                 if application.None? then Ensuring(serverless) else AfterTarget(serverless, application.value)
      modifies this`rows, this`slots, this`w, this`events
      ensures Reported(r, called)
    {
      called := false;
      var ensured :- EnsureApplication(SlotOf(input), serverless, application);
      if ensured.Err? {
        r := Completed(ExecutionResult(ensured.status, None, None, None, None, Some(ensured.reason)));
        return;
      }
      var target := ensured.value;
      var build: Option<string> := None;
      if serverless {
        var built :- BuildArtifact(key, input, target);
        if built.Err? {
          r := Completed(ExecutionResult(Failed, None, Some(target), None, None, Some(built.reason)));
          return;
        }
        build := Some(built.value);
      }
      called := true;
      r := DeployAndConfirm(key, target, build);
    }

    method DeployAndConfirm(key: Key, target: string, build: Option<string>) returns (r: Attempt<ExecutionResult>)
      requires Known() && AtStage(w) && w.pc.stage == Deploying(target, build) && key == RowKey(w.jobs[w.pc.job])
      modifies this`rows, this`w, this`events
      ensures Reported(r, true) && slots == old(slots)
    {
      var deployed :- Deploy(target, build);
      r := Confirm(key, deployed, Some(target), build);
    }

    /** Start the build a job asks for, or poll the one already in flight. */
    method ExecuteDeployment(input: Payload) returns (r: Attempt<ExecutionResult>, ghost called: bool)
      requires Known() && AtStage(w) && w.pc.stage == Started
      requires IsDeployment(w.jobs[w.pc.job]) && input == w.jobs[w.pc.job].payload
      modifies this`rows, this`slots, this`w, this`events
      ensures Reported(r, called)
    {
      called := false;
      var _ :- Reach();
      var serverless, application := ReadProject(input);
      NoteStart(serverless);
      r, called := ResumeOrAct(Key(input.organization, input.deploymentId), input, serverless, application);
    }

    /** Which engine runs the project, and the application the job's slot holds. A preview is always a container. */
    method ReadProject(input: Payload) returns (serverless: bool, application: Option<string>)
      ensures application == BoundTo(slots, SlotOf(input)) && (IsPreview(input) ==> !serverless)
    {
      var project := Key(input.organization, input.projectId);
      if input.kind == Preview && input.previewKey.Some? {
        return false, BoundTo(slots, PreviewSlot(project, input.previewKey.value));
      }
      serverless := *;
      application := BoundTo(slots, ProductionSlot(project));
    }

    ghost method NoteStart(serverless: bool)
      requires Known() && AtStage(w) && w.pc.stage == Started && IsDeployment(w.jobs[w.pc.job])
      modifies this`w, this`events
      ensures HandlerMoved() && w == ToStage(old(w), Dispatch(old(w), old(w).jobs[old(w).pc.job].payload, serverless))
    {
      Take(Prepare(Start(serverless)));
    }

    method ResumeOrAct(key: Key, input: Payload, serverless: bool, application: Option<string>)
      returns (r: Attempt<ExecutionResult>, ghost called: bool)
      requires Known() && AtStage(w) && key == RowKey(w.jobs[w.pc.job]) && input == w.jobs[w.pc.job].payload
      requires application == BoundTo(slots, SlotOf(input)) && (IsPreview(input) ==> !serverless)
      requires w.pc.stage == Dispatch(w, input, serverless)
      modifies this`rows, this`slots, this`w, this`events
      ensures Reported(r, called)
    {
      called := false;
      var resumed :- ResumeRunningDeployment(key, input, serverless);
      if resumed.Some? {
        r := Completed(resumed.value);
        return;
      }
      if input.action == Rollback {
        r, called := RollbackDeployment(key, input, application);
        return;
      }
      r, called := CreateDeployment(key, input, serverless, application);
    }

    // -------------------------------------------------------------- the applier

    /** A store write of the applier's that threw, or where the process died: the rest of the mirroring is lost. */
    twostate predicate MirrorLost()
      reads this
    {
      && Known() && old(events) <= events && w == LetGo(old(w))
      && rows == old(rows) && live == old(live) && usage == old(usage)
    }

    /** Mirror the outcome onto the row. */
    method WriteOutcome(key: Key, result: AdapterResult<ExecutionResult>) returns (written: bool)
      requires Known() && AtMirror(w) && w.pc.mirror.Applying? && IsDeployment(w.jobs[w.pc.job])
      requires key == RowKey(w.jobs[w.pc.job]) && result == w.pc.mirror.result
      modifies this`rows, this`w, this`events
      ensures Known() && old(events) <= events
      ensures if written then w == OnWriteRow(old(w)) else MirrorLost()
    {
      if * {
        NoteCrash();
        return false;
      }
      if key in rows {
        rows := rows[key := ApplyToRow(rows[key], result, now)];
      }
      Take(Settled(WriteRow));
      return true;
    }

    /** Move the project's production pointer to the deployment. */
    method PromoteDeployment(project: Key, key: Key) returns (written: bool)
      requires Known() && AtMirror(w) && w.pc.mirror.Promoting?
      requires project == ProjectOf(w.jobs[w.pc.job].payload) && key == RowKey(w.jobs[w.pc.job])
      modifies this`live, this`w, this`events
      ensures Known() && old(events) <= events
      ensures if written then w == NextSettle(old(w), Promote) else MirrorLost()
    {
      if * {
        NoteCrash();
        return false;
      }
      live := live[project := key];
      Take(Settled(Promote));
      return true;
    }

    /** Record one unit of usage. */
    method RecordUsage(key: Key) returns (written: bool)
      requires Known() && AtMirror(w) && w.pc.mirror.Metering? && key == RowKey(w.jobs[w.pc.job])
      modifies this`usage, this`w, this`events
      ensures Known() && old(events) <= events
      ensures if written then w == NextSettle(old(w), Meter) else MirrorLost()
    {
      if * {
        NoteCrash();
        return false;
      }
      usage := usage + [key];
      Take(Settled(Meter));
      return true;
    }

    /** The row first, then the pointer, then the usage; only a confirmed success goes past the row. */
    method Apply(input: Payload, result: AdapterResult<ExecutionResult>)
      requires Known() && AtMirror(w) && w.pc.mirror.Applying? && w.pc.mirror.result == result
      requires IsDeployment(w.jobs[w.pc.job]) && input == w.jobs[w.pc.job].payload
      modifies this`rows, this`live, this`usage, this`w, this`events
      ensures Known() && old(events) <= events && w.pc.Idle? && w.jobs == old(w.jobs) && now == old(now)
      ensures w.ledger.claims == old(w.ledger.claims)
    {
      var key := Key(input.organization, input.deploymentId);
      var written := WriteOutcome(key, result);
      if !written { return; }
      if result.Ok? && result.value.status == Succeeded {
        PromoteAndRecord(input, key);
      }
    }

    method PromoteAndRecord(input: Payload, key: Key)
      requires Known() && AtMirror(w) && input == w.jobs[w.pc.job].payload && key == RowKey(w.jobs[w.pc.job])
      requires w.pc.mirror == if input.kind == Production && !input.staged then Promoting else Metering
      modifies this`live, this`usage, this`w, this`events
      ensures Known() && old(events) <= events && w.pc.Idle? && w.jobs == old(w.jobs)
      ensures w.ledger.claims == old(w.ledger.claims)
    {
      if input.kind == Production && !input.staged {
        var promoted := PromoteDeployment(Key(input.organization, input.projectId), key);
        if !promoted { return; }
      }
      var recorded := RecordUsage(key);
    }

    // -------------------------------------------------------------- the processor

    /** Classify the handler's outcome: what the queue is told, and what the applier is handed. */
    method Judge(outcome: AdapterResult<ExecutionResult>, createdAt: nat, t: nat)
      returns (write: QueueWrite, result: AdapterResult<ExecutionResult>)
      ensures Settlement(write, result) == Classify(outcome, createdAt, t, cfg.pollCeilingMs)
      ensures outcome.Ok? && outcome.status == Succeeded ==> write.CompleteWrite?
      ensures outcome.status in {Pending, Running} ==>
                if createdAt + cfg.pollCeilingMs <= t then write.TerminateWrite? && result.Err?
                else write.DeferWrite? && result == outcome
      ensures outcome.status in {NotConfigured, Degraded} ==> write.TerminateWrite?
      ensures outcome.Err? && outcome.status in {Failed, Succeeded} ==> write == FailWrite(outcome.reason)
      ensures result.status == outcome.status
    {
      if outcome.Ok? && outcome.status == Succeeded {
        return CompleteWrite, outcome;
      }
      var reason := if outcome.Ok? then "Adapter returned " + StatusText(outcome.status) + "." else outcome.reason;
      if outcome.status == Running || outcome.status == Pending {
        if t - createdAt >= cfg.pollCeilingMs {
          var ceilingReason := CeilingReason(outcome.status);
          return TerminateWrite(ceilingReason), Err(outcome.status, ceilingReason);
        }
        return DeferWrite(reason), outcome;
      }
      if outcome.status == NotConfigured || outcome.status == Degraded {
        return TerminateWrite(reason), outcome;
      }
      return FailWrite(reason), outcome;
    }

    ghost method NoteDecide()
      requires Known() && AtStage(w) && w.pc.stage.Returned?
      modifies this`w, this`events
      ensures Known() && old(events) <= events && w == OnDecide(old(w))
    {
      Take(Settled(Decide));
    }

    /** The handler has returned: look at the clock and decide how the claim ends. */
    method Decided(x: ExecutionResult, createdAt: nat)
      returns (write: QueueWrite, result: AdapterResult<ExecutionResult>)
      requires Known() && AtStage(w) && w.pc.stage.Returned? && w.pc.stage.execution == x
      requires createdAt == w.jobs[w.pc.job].createdAt
      modifies this`now, this`w, this`events
      ensures Known() && old(events) <= events && now >= old(now)
      ensures w == OnDecide(old(w).(now := now)) && w.pc.stage.write == write && w.pc.stage.result == result
      ensures result.status == x.status && (x.status in {NotConfigured, Degraded} ==> write.TerminateWrite?)
    {
      var t := Clock();
      write, result := Judge(HandlerOutcome(x), createdAt, t);
      NoteDecide();
    }

    /** Tell the queue how the claim ended. */
    method TellQueue(id: nat, write: QueueWrite, t: nat)
      requires queue.Valid() && 1 <= id <= |queue.Jobs()|
      modifies queue.Repr
      ensures queue.Valid() && unchanged(queue)
      ensures queue.Jobs()
           == old(queue.Jobs())[id - 1 := QueueCall(old(queue.Jobs())[id - 1], write, t, cfg.pollBackoffMs)]
    {
      match write {
        case CompleteWrite => queue.Complete(id, t);
        case FailWrite(reason) => queue.Fail(id, reason, t);
        case TerminateWrite(reason) => queue.Terminate(id, reason, t);
        case DeferWrite(reason) => queue.Defer(id, reason, cfg.pollBackoffMs, t);
      }
    }

    ghost method NoteEndClaim()
      requires Leads(events, w) && AtStage(w) && w.pc.stage.Settling?
      modifies this`w, this`events
      ensures Leads(events, w) && old(events) <= events && w == OnWriteQueue(old(w))
    {
      Take(Settled(WriteQueue));
    }

    /** End the claim. A call that throws leaves the job to its lease. */
    method EndClaim(id: nat, write: QueueWrite) returns (ended: bool)
      requires Valid() && AtStage(w) && w.pc.stage.Settling? && w.pc.stage.write == write && id == w.pc.job + 1
      modifies this`now, this`w, this`events, queue.Repr
      ensures Valid() && old(events) <= events && now >= old(now)
      ensures if ended
              then w == OnWriteQueue(old(w).(now := now))
              else w == LetGo(old(w))
    {
      if * {
        NoteCrash();
        return false;
      }
      var t := Clock();
      TellQueue(id, write, t);
      NoteEndClaim();
      return true;
    }

    ghost method NoteClaim()
      requires Leads(events, w) && EnvEnabled(w, Claim)
      modifies this`w, this`events
      ensures Leads(events, w) && old(events) <= events && w == OnClaim(old(w))
    {
      Take(Env(Claim));
    }

    /** Take the next claimable job, if there is one. */
    method ClaimJob() returns (j: Option<nat>)
      requires Valid() && w.pc.Idle?
      modifies this`now, this`w, this`events, queue.Repr
      ensures Valid() && old(events) <= events && now >= old(now)
      ensures j == FirstClaimable(old(w).jobs, now)
      ensures w == if j.Some? then OnClaim(old(w).(now := now)) else old(w).(now := now)
    {
      var t := Clock();
      j := ClaimAt(t);
    }

    method ClaimAt(t: nat) returns (j: Option<nat>)
      requires Valid() && w.pc.Idle? && t == now
      modifies this`w, this`events, queue.Repr
      ensures Valid() && old(events) <= events
      ensures j == FirstClaimable(old(w).jobs, t)
      ensures w == if j.Some? then OnClaim(old(w)) else old(w)
    {
      j := queue.Claim(t, cfg.leaseMs);
      if j.Some? {
        NoteClaim();
      }
    }

    /** The claimed job as the queue holds it. */
    method ReadJob(j: nat) returns (job: Job<Payload>)
      requires Valid() && j < |w.jobs|
      ensures job == w.jobs[j]
    {
      var stored := queue.Get(j + 1);
      job := stored.value.View();
    }

    /** Which reason an outcome carries: none for a success or a build still in flight. */
    function OutcomeReason(write: QueueWrite): Option<string> {
      match write
      case FailWrite(reason) => Some(reason)
      case TerminateWrite(reason) => Some(reason)
      case _ => None
    }

    /** Mirror the job onto its row. A job of another kind has no row to mirror onto. */
    method Settle(job: Job<Payload>, result: AdapterResult<ExecutionResult>)
      requires Known() && AtMirror(w) && w.pc.mirror.Applying? && w.pc.mirror.result == result
      requires job.kind == w.jobs[w.pc.job].kind && job.payload == w.jobs[w.pc.job].payload
      modifies this`rows, this`live, this`usage, this`w, this`events
      ensures Known() && old(events) <= events && w.pc.Idle? && w.jobs == old(w.jobs) && now == old(now)
      ensures w.ledger.claims == old(w.ledger.claims)
    {
      if job.kind != DEPLOYMENT_JOB_KIND {
        NoteCrash();
        return;
      }
      Apply(job.payload, result);
    }

    /** End the claim and stand at the row. */
    method Release(j: nat, write: QueueWrite, ghost result: AdapterResult<ExecutionResult>) returns (ended: bool)
      requires Valid() && AtStage(w) && w.pc.stage.Settling? && w.pc.stage.write == write && w.pc.stage.result == result
      requires j == w.pc.job
      modifies this`now, this`w, this`events, queue.Repr
      ensures Valid() && old(events) <= events && w.ledger.claims == old(w.ledger.claims)
      ensures !ended ==> w.pc.Idle? && w.jobs == old(w).jobs
      ensures ended ==>
                && AtMirror(w) && w.pc.job == j && w.pc.mirror.Applying? && w.pc.mirror.result == result
                && w.jobs == old(w).jobs[j := QueueCall(old(w).jobs[j], write, now, cfg.pollBackoffMs)]
    {
      ended := EndClaim(j + 1, write);
    }

    /** The queue first, then the row. */
    method Finish(j: nat, job: Job<Payload>, write: QueueWrite, result: AdapterResult<ExecutionResult>)
      returns (r: Attempt<JobOutcome>)
      requires Valid() && AtStage(w) && w.pc.stage.Settling? && w.pc.stage.write == write && w.pc.stage.result == result
      requires j == w.pc.job && job == w.jobs[j]
      modifies this, queue.Repr
      ensures Valid() && old(events) <= events && w.pc.Idle? && |w.jobs| == |old(w).jobs|
      ensures w.ledger.claims == old(w.ledger.claims)
      ensures r.Completed? ==>
                && w.jobs == old(w).jobs[j := w.jobs[j]]
                && (exists t :: w.jobs[j] == QueueCall(job, write, t, cfg.pollBackoffMs))
                && r.value == JobOutcome(j, job.kind, result.status, write.CompleteWrite?, OutcomeReason(write))
      ensures !r.Completed? ==> r.Died? && w.jobs == old(w).jobs
    {
      var ended := Release(j, write, result);
      if !ended { return Died; }
      Settle(job, result);
      return Completed(JobOutcome(j, job.kind, result.status, write.CompleteWrite?, OutcomeReason(write)));
    }

    ghost method NoteNoHandler()
      requires Known() && AtStage(w) && w.pc.stage == Started && !IsDeployment(w.jobs[w.pc.job])
      modifies this`w, this`events
      ensures Known() && old(events) <= events && w == OnNoHandler(old(w))
    {
      Take(Prepare(NoHandler));
    }

    /**
     The claim has ended: in one queue call whose state the queue now holds, or not at
     all because the process died first.
     */
    twostate predicate Ended(new r: Attempt<JobOutcome>, j: nat)
      reads this
    {
      && old(events) <= events && w.pc.Idle? && j < |w.jobs| == |old(w).jobs| && w.ledger.claims == old(w.ledger.claims)
      && if r.Completed?
         then w.jobs == old(w).jobs[j := w.jobs[j]] && w.jobs[j].state != JobRunning
           && r.value.job == j && (r.value.applied <==> w.jobs[j].state == JobSucceeded)
           && (r.value.status in {NotConfigured, Degraded} ==> w.jobs[j].state == JobFailed)
         else r.Died? && w.jobs == old(w).jobs
    }

    /** Run one claimed job to the end of its claim. */
    method RunClaimed(j: nat) returns (r: Attempt<JobOutcome>)
      requires Valid() && AtStage(w) && w.pc == Holding(j, Started)
      modifies this, queue.Repr
      ensures Valid() && Ended(r, j)
    {
      var job := ReadJob(j);
      if job.kind != DEPLOYMENT_JOB_KIND {
        var reason := "No handler registered for kind '" + job.kind + "'.";
        NoteNoHandler();
        r := Finish(j, job, TerminateWrite(reason), Err(NotConfigured, reason));
        return;
      }
      r := RunDeployment(j, job);
    }

    method RunDeployment(j: nat, job: Job<Payload>) returns (r: Attempt<JobOutcome>)
      requires Valid() && AtStage(w) && w.pc == Holding(j, Started) && job == w.jobs[j] && IsDeployment(job)
      modifies this, queue.Repr
      ensures Valid() && Ended(r, j)
    {
      var executed, called := ExecuteDeployment(job.payload);
      match executed
      case Died => return Died;
      case Threw(reason) => r := Finish(j, job, FailWrite(reason), Err(Failed, reason));
      case Completed(x) =>
        var write, result := Decided(x, job.createdAt);
        r := Finish(j, job, write, result);
    }

    /**
     Process at most one job. The queue is left as it was when nothing is
     claimable; otherwise the first claimable job is taken and its claim ended.
     */
    method Tick() returns (r: Attempt<Option<JobOutcome>>)
      requires Valid() && w.pc.Idle?
      modifies this, queue.Repr
      ensures Valid() && old(events) <= events && w.pc.Idle? && |w.jobs| == |old(w).jobs|
      ensures r == Completed(None) ==> w == old(w).(now := now) && FirstClaimable(w.jobs, now).None?
      ensures r.Completed? && r.value.Some? ==> w.ledger.claims == old(w.ledger.claims) + multiset{r.value.value.job}
      ensures |w.ledger.claims| <= |old(w.ledger.claims)| + 1
      ensures r.Completed? && r.value.Some? ==>
                var j := r.value.value.job;
                && j < |w.jobs| && w.jobs[j].state != JobRunning
                && (r.value.value.applied <==> w.jobs[j].state == JobSucceeded)
                && (r.value.value.status in {NotConfigured, Degraded} ==> w.jobs[j].state == JobFailed)
      ensures r.Completed? || r.Died?
    {
      var j := ClaimJob();
      if j.None? { return Completed(None); }
      var outcome := RunClaimed(j.value);
      if !outcome.Completed? { return Died; }
      return Completed(Some(outcome.value));
    }

    /** Drain the queue, up to `max` jobs. */
    method Drain(max: nat) returns (outcomes: seq<JobOutcome>, alive: bool)
      requires Valid() && w.pc.Idle?
      modifies this, queue.Repr
      ensures Valid() && old(events) <= events && w.pc.Idle?
      ensures |outcomes| <= max && (alive ==> |w.ledger.claims| == |old(w.ledger.claims)| + |outcomes|)
      ensures |w.ledger.claims| <= |old(w.ledger.claims)| + max
      ensures alive && |outcomes| < max ==> FirstClaimable(w.jobs, now).None?
    {
      outcomes := [];
      for i := 0 to max
        invariant Valid() && old(events) <= events && w.pc.Idle? && |outcomes| == i
        invariant |w.ledger.claims| == |old(w.ledger.claims)| + i
      {
        var outcome := Tick();
        if !outcome.Completed? { return outcomes, false; }
        if outcome.value.None? { return outcomes, true; }
        outcomes := outcomes + [outcome.value.value];
      }
      alive := true;
    }

    // -------------------------------------------------------------- the reaper and the sweep

    ghost method NoteReap()
      requires Leads(events, w) && w.pc.Idle?
      modifies this`w, this`events
      ensures Leads(events, w) && old(events) <= events && w == OnReap(old(w))
    {
      Take(Env(EnvEvent.Reap));
    }

    /** Return every lapsed claim to the queue. */
    method Reap() returns (reaped: nat)
      requires Valid() && w.pc.Idle?
      modifies this`now, this`w, this`events, queue.Repr
      ensures Valid() && old(events) <= events && now >= old(now)
      ensures w == OnReap(old(w).(now := now)) && reaped == CountExpired(old(w).jobs, |old(w).jobs|, now)
    {
      var t := Clock();
      reaped := ReapAt(t);
    }

    method ReapAt(t: nat) returns (reaped: nat)
      requires Valid() && w.pc.Idle? && t == now
      modifies this`w, this`events, queue.Repr
      ensures Valid() && old(events) <= events
      ensures w == OnReap(old(w)) && reaped == CountExpired(old(w).jobs, |old(w).jobs|, t)
    {
      reaped := queue.ReapExpired(t);
      NoteReap();
    }

    ghost method NoteSweep(e: SweepEvent)
      requires Leads(events, w) && SweepEnabled(w, e)
      modifies this`w, this`events
      ensures Leads(events, w) && old(events) <= events && w == NextSweep(old(w), e)
    {
      Take(Event.Swept(e));
    }

    /** The sweep was broken off at this call: an exception the loop catches, or the process died. */
    twostate predicate SweepLost()
      reads this
    {
      && Known() && old(events) <= events && w == LetGo(old(w))
      && rows == old(rows) && live == old(live) && usage == old(usage)
    }

    /** Ask the engine about a row's own run, or its application. */
    method AskEngine(ref: ProviderRef) returns (a: Option<AdapterResult<DeploymentState>>)
      requires Known() && w.pc.Sweeping? && w.pc.visit.Asking? && SweepRef(w.pc.visit.row.row) == Some(ref)
      modifies this`w, this`events
      ensures Known() && old(events) <= events
      ensures if a.Some? then w == OnSweepAnswer(old(w), ref, a.value) else SweepLost()
    {
      if * {
        NoteCrash();
        return None;
      }
      var answer: AdapterResult<DeploymentState> := *;
      NoteSweep(SweepAnswer(ref, answer));
      return Some(answer);
    }

    /** Persist what the sweep decided about a row. */
    method WriteSettledRow(row: Stranded, status: EngineStatus, url: Option<string>, reason: Option<string>, at: nat)
      returns (written: bool)
      requires Known() && w.pc.Sweeping? && w.pc.visit == Writing(row, SweepDecision.Settle(status, url, reason))
      requires at == w.pc.at
      requires row.key in rows
      modifies this`rows, this`w, this`events
      ensures Known() && old(events) <= events
      ensures if written
              then w == OnSweepWrite(old(w))
                && rows == old(rows)[row.key :=
                     SettledRow(old(rows)[row.key], row.row, SweepDecision.Settle(status, url, reason), at)]
              else SweepLost()
    {
      if * {
        NoteCrash();
        return false;
      }
      rows := rows[row.key := SettleRow(rows[row.key], status, url, reason, row.row.app, row.row.handle, None, at)];
      NoteSweep(SweepWrite);
      return true;
    }

    /** The pointer and the usage of a row the engine confirmed, in the applier's order. */
    method PromoteAndRecordRow(row: Stranded) returns (finished: bool)
      requires Known() && w.pc.Sweeping?
      requires w.pc.visit ==
                 if row.row.kind == Production && !row.row.staged then PromotingRow(row) else MeteringRow(row)
      modifies this`live, this`usage, this`w, this`events
      ensures Known() && old(events) <= events && w.jobs == old(w.jobs)
      ensures w.pc == if finished then Sweeping(Listing, old(w).pc.rest, old(w).pc.at) else Idle
    {
      if row.row.kind == Production && !row.row.staged {
        if * {
          NoteCrash();
          return false;
        }
        live := live[row.row.project := row.key];
        NoteSweep(SweepPromote);
      }
      finished := RecordRowUsage(row);
    }

    method RecordRowUsage(row: Stranded) returns (finished: bool)
      requires Known() && w.pc.Sweeping? && w.pc.visit == MeteringRow(row)
      modifies this`usage, this`w, this`events
      ensures Known() && old(events) <= events && w.jobs == old(w.jobs)
      ensures w.pc == if finished then Sweeping(Listing, old(w).pc.rest, old(w).pc.at) else Idle
    {
      if * {
        NoteCrash();
        return false;
      }
      usage := usage + [row.key];
      NoteSweep(SweepMeter);
      return true;
    }

    /** Persist a settled row, then do for a success what the applier does. */
    method WriteSettled(row: Stranded, status: EngineStatus, url: Option<string>, reason: Option<string>, at: nat)
      returns (finished: bool, ghost wrote: bool)
      requires Known() && w.pc.Sweeping? && w.pc.visit == Writing(row, SweepDecision.Settle(status, url, reason))
      requires at == w.pc.at
      requires row.key in rows
      modifies this`rows, this`live, this`usage, this`w, this`events
      ensures Known() && old(events) <= events && w.jobs == old(w.jobs)
      ensures rows == if wrote
                      then old(rows)[row.key :=
                             SettledRow(old(rows)[row.key], row.row, SweepDecision.Settle(status, url, reason), at)]
                      else old(rows)
      ensures finished ==> wrote
      ensures w.pc == if finished then Sweeping(Listing, old(w).pc.rest, at) else Idle
    {
      var written := WriteSettledRow(row, status, url, reason, at);
      wrote := written;
      if !written { return false, false; }
      if status == Succeeded {
        finished := PromoteAndRecordRow(row);
      } else {
        finished := true;
      }
    }

    /** Decide about one row: nothing to do yet, or a write, or the process was lost while asking. */
    method Resolve(row: Stranded, at: nat) returns (d: Option<SweepDecision>)
      requires Known() && AtListing(w) && w.pc.rest[0] == row && w.pc.at == at
      modifies this`w, this`events
      ensures Known() && old(events) <= events && w.jobs == old(w.jobs)
      ensures d.None? ==> w.pc.Idle?
      ensures d.Some? ==>
                && Reachable(row.row, d.value, at, cfg.hardCeilingMs)
                && w.pc == Sweeping(if d.value.Leave? then Listing else Writing(row, d.value), old(w).pc.rest[1..], at)
    {
      if * {
        NoteCrash();
        return None;
      }
      if SweepRef(row.row).None? && DecideUnreached(row.row, at, cfg.hardCeilingMs).Leave? {
        NoteSweep(SweepSkip);
        return Some(Leave);
      }
      NoteSweep(SweepReach);
      if SweepRef(row.row).None? {
        return Some(DecideUnreached(row.row, at, cfg.hardCeilingMs));
      }
      var answer := AskEngine(SweepRef(row.row).value);
      if answer.None? { return None; }
      return Some(DecideAnswered(row.row, answer.value, at, cfg.hardCeilingMs));
    }

    /** Visit one row: at most that row is written, and only with a decision the row allows. */
    method SettleOne(row: Stranded, at: nat) returns (wrote: Option<bool>, ghost d: SweepDecision)
      requires Known() && AtListing(w) && w.pc.rest[0] == row && w.pc.at == at
      requires row.key in rows && rows[row.key] == row.row
      modifies this`rows, this`live, this`usage, this`w, this`events
      ensures Known() && old(events) <= events && w.jobs == old(w.jobs)
      ensures rows == if d.Settle? then old(rows)[row.key := SettledRow(row.row, row.row, d, at)] else old(rows)
      ensures d.Settle? || wrote.Some? ==> Reachable(row.row, d, at, cfg.hardCeilingMs)
      ensures wrote.Some? ==> wrote.value == d.Settle?
      ensures w.pc == if wrote.Some? then Sweeping(Listing, old(w).pc.rest[1..], at) else Idle
    {
      var decision := Resolve(row, at);
      if decision.None? { return None, Leave; }
      match decision.value
      case Leave => return Some(false), Leave;
      case Settle(status, url, reason) =>
        var finished, written := WriteSettled(row, status, url, reason, at);
        d := if written then decision.value else Leave;
        wrote := if finished then Some(true) else None;
    }

    /** Visit the listed rows in order, and count the rows written. */
    method VisitAll(list: seq<Stranded>, at: nat) returns (settled: Option<nat>, ghost ds: seq<SweepDecision>)
      requires Known() && w.pc == Sweeping(Listing, list, at) && ListedFrom(rows, list)
      modifies this`rows, this`live, this`usage, this`w, this`events
      ensures Known() && old(events) <= events && w.jobs == old(w.jobs)
      ensures AllReachable(list, ds, at, cfg.hardCeilingMs) && rows == SweptRows(old(rows), list, ds, at)
      ensures if settled.Some?
              then settled.value == CountSettled(ds) && |ds| == |list| && w.pc == Sweeping(Listing, [], at)
              else w.pc.Idle?
    {
      var count := 0;
      ds := [];
      ghost var rest := list;
      for i := 0 to |list|
        invariant Known() && old(events) <= events && w.jobs == old(w.jobs)
        invariant w.pc == Sweeping(Listing, rest, at)
        invariant rest == list[i..]
        invariant |ds| == i && AllReachable(list, ds, at, cfg.hardCeilingMs)
        invariant rows == SweptRows(old(rows), list, ds, at)
        invariant count == CountSettled(ds)
      {
        var wrote: Option<bool>;
        wrote, ds := VisitOne(list, old(rows), ds, i, at);
        if wrote.None? { return None, ds; }
        if wrote.value { count := count + 1; }
        rest := rest[1..];
        assert rest == list[i + 1..];
      }
      settled := Some(count);
    }

    method VisitOne(list: seq<Stranded>, ghost before: map<Key, Row>, ghost ds: seq<SweepDecision>, i: nat, at: nat)
      returns (wrote: Option<bool>, ghost more: seq<SweepDecision>)
      requires ListedFrom(before, list) && |ds| == i < |list| && AllReachable(list, ds, at, cfg.hardCeilingMs)
      requires Known() && AtListing(w) && w.pc.rest[0] == list[i] && w.pc.at == at
      requires rows == SweptRows(before, list, ds, at)
      modifies this`rows, this`live, this`usage, this`w, this`events
      ensures Known() && old(events) <= events && w.jobs == old(w.jobs)
      ensures AllReachable(list, more, at, cfg.hardCeilingMs) && rows == SweptRows(before, list, more, at)
      ensures w.pc == if wrote.Some? then Sweeping(Listing, old(w).pc.rest[1..], at) else Idle
      ensures wrote.Some? ==> |more| == i + 1 && CountSettled(more) == CountSettled(ds) + if wrote.value then 1 else 0
    {
      SweptRowsAt(before, list, ds, at);
      ghost var d;
      wrote, d := SettleOne(list[i], at);
      more := ds;
      if d.Settle? || wrote.Some? {
        SweptOneMore(before, list, ds, d, at, cfg.hardCeilingMs);
        more := ds + [d];
      }
    }

    /**
     One sweep. It reads the stranded rows, visits them in order, and reports how
     many it settled; an exception or the death of the process stops it between
     two writes.
     */
    method Sweep() returns (settled: Option<nat>, ghost list: seq<Stranded>, ghost ds: seq<SweepDecision>)
      requires Known() && w.pc.Idle?
      modifies this`now, this`rows, this`live, this`usage, this`w, this`events
      ensures Known() && old(events) <= events && w.pc.Idle? && w.jobs == old(w.jobs) && now >= old(now)
      ensures StrandedListing(old(rows), now, cfg.staleAfterMs, cfg.sweepLimit, list)
      ensures AllReachable(list, ds, now, cfg.hardCeilingMs) && rows == SweptRows(old(rows), list, ds, now)
      ensures settled.Some? ==> |ds| == |list| && settled.value == CountSettled(ds)
    {
      var at := Clock();
      var found := ListStranded(rows, at, cfg.staleAfterMs, cfg.sweepLimit);
      list := found;
      NoteSweep(SweepStart(found));
      settled, ds := VisitAll(found, at);
      if settled.Some? {
        NoteSweep(SweepEnd);
      }
    }

    // -------------------------------------------------------------- the API and the loop

    ghost method NoteRow(key: Key, row: Row)
      requires Leads(events, w) && key !in w.rows && row == NewRow(row.project, row.kind, row.staged, w.now)
      modifies this`w, this`events
      ensures Leads(events, w) && old(events) <= events && w == old(w).(rows := old(w).rows[key := row])
    {
      Take(Env(CreateRow(key, row)));
    }

    ghost method NoteSubmit(input: EnqueueInput<Payload>)
      requires Leads(events, w) && Submittable(w, input)
      modifies this`w, this`events
      ensures Leads(events, w) && old(events) <= events
      ensures w == old(w).(jobs := Enqueued(old(w).jobs, input, old(w).now))
    {
      Take(Env(EnvEvent.Submit(input)));
    }

    /** Record a deployment: the row the job will advance. */
    method CreateDeploymentRow(p: Payload)
      requires Known() && DeploymentOf(p) !in rows
      modifies this`rows, this`w, this`events
      ensures Known() && old(events) <= events && w.jobs == old(w.jobs) && w.pc == old(w.pc)
      ensures rows == old(rows)[DeploymentOf(p) := NewRow(ProjectOf(p), p.kind, p.staged, now)]
    {
      var row := NewRow(ProjectOf(p), p.kind, p.staged, now);
      rows := rows[DeploymentOf(p) := row];
      NoteRow(DeploymentOf(p), row);
    }

    /** No job can have asked for a deployment that has no row yet. */
    lemma NothingAskedYet(key: Key)
      requires Known() && key !in rows
      ensures forall j :: 0 <= j < |w.jobs| && IsDeployment(w.jobs[j]) ==> RowKey(w.jobs[j]) != key
    {
      LeadsKeeps(events, w);
      forall j | 0 <= j < |w.jobs| && IsDeployment(w.jobs[j]) ensures RowKey(w.jobs[j]) != key {
        assert RowMatches(w.jobs[j], w.rows);
      }
    }

    /** Ask for a deployment: the row first, then its job. A request that dies in between leaves the row. */
    method RequestDeployment(input: EnqueueInput<Payload>) returns (enqueued: bool)
      requires Valid() && input.kind == DEPLOYMENT_JOB_KIND && Budgeted(input) && DeploymentOf(input.payload) !in rows
      modifies this`rows, this`w, this`events, queue, queue.Repr
      ensures Valid() && old(events) <= events && w.pc == old(w.pc) && fresh(queue.Repr - old(queue.Repr))
      ensures rows == old(rows)[DeploymentOf(input.payload) :=
                                NewRow(ProjectOf(input.payload), input.payload.kind, input.payload.staged, now)]
      ensures w.jobs == if enqueued then Enqueued(old(w.jobs), input, now) else old(w.jobs)
    {
      NothingAskedYet(DeploymentOf(input.payload));
      CreateDeploymentRow(input.payload);
      if * { return false; }
      Submit(input);
      return true;
    }

    method Submit(input: EnqueueInput<Payload>)
      requires Valid() && Submittable(w, input)
      modifies this`w, this`events, queue, queue.Repr
      ensures Valid() && old(events) <= events && fresh(queue.Repr - old(queue.Repr))
      ensures w == old(w).(jobs := Enqueued(old(w).jobs, input, now))
    {
      var job := queue.Enqueue(input, now);
      NoteSubmit(input);
    }

    /**
     The rows are those of one pass over the stranded ones of `before`, each decided from
     what the engine answered.
     */
    ghost predicate SweptFrom(before: map<Key, Row>, list: seq<Stranded>, ds: seq<SweepDecision>)
      reads this
    {
      && StrandedListing(before, now, cfg.staleAfterMs, cfg.sweepLimit, list)
      && AllReachable(list, ds, now, cfg.hardCeilingMs) && rows == SweptRows(before, list, ds, now)
    }

    /** One cycle's sweep, exactly when the last one is an interval ago or longer. */
    method SweepIfDue(lastSweepAt: nat, intervalMs: nat)
      returns (sweptAt: Option<nat>, alive: bool, ghost list: seq<Stranded>, ghost ds: seq<SweepDecision>)
      requires Valid() && w.pc.Idle?
      modifies this`now, this`rows, this`live, this`usage, this`w, this`events
      ensures Valid() && old(events) <= events && w.pc.Idle? && w.jobs == old(w.jobs) && old(now) <= now
      ensures sweptAt.Some? ==> lastSweepAt + intervalMs <= sweptAt.value && SweptFrom(old(rows), list, ds)
      ensures sweptAt.None? ==> alive && now < lastSweepAt + intervalMs && rows == old(rows)
    {
      list, ds := [], [];
      var t := Clock();
      if t - lastSweepAt < intervalMs { return None, true, [], []; }
      t := Clock();
      sweptAt := Some(t);
      alive, list, ds := Sweeps();
    }

    /** A sweep that settles what it can. The loop catches one that threw; a process that died is gone. */
    method Sweeps() returns (alive: bool, ghost list: seq<Stranded>, ghost ds: seq<SweepDecision>)
      requires Known() && w.pc.Idle?
      modifies this`now, this`rows, this`live, this`usage, this`w, this`events
      ensures Known() && old(events) <= events && w.pc.Idle? && w.jobs == old(w.jobs) && old(now) <= now
      ensures SweptFrom(old(rows), list, ds)
    {
      var settled;
      settled, list, ds := Sweep();
      alive := true;
      if settled.None? { alive := *; }
    }

    /**
     One cycle. First every lapsed claim is returned; then at most fifty jobs are
     claimed, fewer only when none is left to claim; then, when a sweep is due and only
     then, the stranded rows are swept.
     */
    method Cycle(lastSweepAt: nat, sweepIntervalMs: nat)
      returns (sweptAt: Option<nat>, alive: bool, ghost reaped: World, ghost drained: World,
               ghost list: seq<Stranded>, ghost ds: seq<SweepDecision>)
      requires Valid() && w.pc.Idle?
      modifies this, queue.Repr
      ensures Valid() && old(events) <= events && w.pc.Idle?
      ensures old(now) <= reaped.now && reaped == OnReap(old(w).(now := reaped.now))
      ensures |drained.ledger.claims| <= |reaped.ledger.claims| + 50 && w.jobs == drained.jobs
      ensures alive || sweptAt.Some? ==>
                |drained.ledger.claims| == |reaped.ledger.claims| + 50
                  || FirstClaimable(drained.jobs, drained.now).None?
      ensures sweptAt.Some? ==> lastSweepAt + sweepIntervalMs <= sweptAt.value && SweptFrom(drained.rows, list, ds)
      ensures sweptAt.None? ==> rows == drained.rows && (alive ==> now < lastSweepAt + sweepIntervalMs)
    {
      list, ds := [], [];
      var returned := Reap();
      reaped := w;
      var outcomes;
      outcomes, alive := Drain(50);
      drained := w;
      if !alive { return None, false, reaped, drained, [], []; }
      sweptAt, alive, list, ds := SweepIfDue(lastSweepAt, sweepIntervalMs);
    }

    /** A state right after a reap. */
    static ghost predicate JustReaped(w: World) {
      exists before: World :: before.pc.Idle? && w == OnReap(before)
    }

    static lemma IsJustReaped(before: World, after: World)
      requires before.pc.Idle? && after == OnReap(before.(now := after.now))
      ensures JustReaped(after)
    {
      assert before.(now := after.now).pc.Idle?;
    }

    static ghost predicate AllJustReaped(reaps: seq<World>) {
      forall i :: 0 <= i < |reaps| ==> JustReaped(reaps[i])
    }

    static lemma OneMoreReaped(reaps: seq<World>, reaped: World)
      requires AllJustReaped(reaps) && JustReaped(reaped)
      ensures AllJustReaped(reaps + [reaped])
    {
    }

    /** When the last of these sweeps was, or the beginning of time. */
    static function LastOf(sweeps: seq<nat>): nat {
      if |sweeps| == 0 then 0 else sweeps[|sweeps| - 1]
    }

    /** One more cycle of the loop. */
    method RunCycle(sweeps: seq<nat>, sweepIntervalMs: nat, ghost reaps: seq<World>)
      returns (later: seq<nat>, died: bool, ghost more: seq<World>)
      requires Valid() && w.pc.Idle? && Spaced(sweeps, sweepIntervalMs) && AllJustReaped(reaps)
      modifies this, queue.Repr
      ensures Valid() && old(events) <= events && w.pc.Idle?
      ensures Spaced(later, sweepIntervalMs) && |more| == |reaps| + 1 && AllJustReaped(more)
    {
      var sweptAt, alive, reaped, _, _, _ := Cycle(LastOf(sweeps), sweepIntervalMs);
      IsJustReaped(old(w), reaped);
      OneMoreReaped(reaps, reaped);
      later := if sweptAt.Some? then sweeps + [sweptAt.value] else sweeps;
      more := reaps + [reaped];
      died := false;
      if !alive { died := *; }
    }

    /**
     The worker's loop, for as many cycles as it is left running. A cycle that
     throws is followed by the next one; only the death of the process cuts the loop
     short. Every cycle reaps first, and two sweeps of one process are never closer
     than the interval.
     */
    method RunLoop(cycles: nat, sweepIntervalMs: nat) returns (sweeps: seq<nat>, died: bool, ghost reaps: seq<World>)
      requires Valid() && w.pc.Idle?
      modifies this, queue.Repr
      ensures Valid() && old(events) <= events && w.pc.Idle?
      ensures Spaced(sweeps, sweepIntervalMs)
      ensures |reaps| <= cycles && (!died ==> |reaps| == cycles) && AllJustReaped(reaps)
    {
      sweeps, died, reaps := [], false, [];
      for c := 0 to cycles
        invariant Valid() && old(events) <= events && w.pc.Idle?
        invariant Spaced(sweeps, sweepIntervalMs) && |reaps| == c && AllJustReaped(reaps) && !died
      {
        sweeps, died, reaps := RunCycle(sweeps, sweepIntervalMs, reaps);
        if died { return; }
      }
    }
  }

  /**
   The protocol's promises, of the program's own fields: whatever the engine has
   answered and wherever the process has died.
   */
  lemma ProgramKeepsItsPromises(c: ControlPlane, key: Key)
    requires c.Known()
    ensures multiset(c.usage)[key] <= 1 + c.w.ledger.early[key]
    ensures key in c.rows && c.rows[key].status == Succeeded ==> key in ForRows(c.w.ledger.heard)
    ensures key in c.live ==>
              && c.live[key] in c.rows && c.rows[c.live[key]].project == key
              && c.rows[c.live[key]].kind == Production && !c.rows[c.live[key]].staged
              && c.live[key] in ForJobs(c.w.ledger.heard)
    ensures key in c.live && (forall k :: 0 <= k < |c.events| ==> AcceptsPlainly(c.events[k])) ==>
              c.live[key] in c.w.ledger.heard.read + c.w.ledger.heard.elsewhere
  {
    var states :| Run(states, c.events) && Last(states) == c.w;
    UsageIsCountedOnce(states, c.events, key);
    SuccessIsNeverInvented(states, c.events);
    AcceptedExactly(states, c.events);
    if key in c.live { LiveIsASuccess(states, c.events, key); }
  }

  /** The engine calls the program has made for a job. */
  lemma ProgramBoundsItsCalls(c: ControlPlane, j: nat)
    requires c.Known() && j < |c.w.jobs| && IsDeployment(c.w.jobs[j])
    ensures c.w.ledger.calls[j]
         <= c.w.jobs[j].maxAttempts + c.w.ledger.early[RowKey(c.w.jobs[j])] + c.w.ledger.unaddressed[j]
  {
    var states :| Run(states, c.events) && Last(states) == c.w;
    CallsAreBounded(states, c.events, j);
  }

  /**
   With a configuration and an engine that are safe, the program's calls keep to the
   budget, and its usage to one unit.
   */
  lemma ProgramIsSafe(c: ControlPlane, answers: iset<AdapterResult<ProviderRef>>)
    requires c.Known() && AnsweredFrom(c.events, answers)
    ensures BudgetIsSafe(c.cfg, answers) ==> KeepsBudget(c.w)
    ensures c.cfg.sweepLimit == 0 ==> forall key :: multiset(c.usage)[key] <= 1
  {
    var states :| Run(states, c.events) && Last(states) == c.w;
    if BudgetIsSafe(c.cfg, answers) { SafeBudgetIsKept(states, c.events, c.cfg, answers); }
    if c.cfg.sweepLimit == 0 { WithoutSweepsCountsOnce(states, c.events); }
  }

  predicate Spaced(times: seq<nat>, intervalMs: nat) {
    forall i :: 0 < i < |times| ==> times[i - 1] + intervalMs <= times[i]
  }
}
