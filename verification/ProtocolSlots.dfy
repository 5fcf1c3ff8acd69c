/**
 Application slots.

 An engine that never issues the same application id twice gives every slot an
 application of its own: each slot is written at most once, no two hold the same
 application, and a job's deploy or rollback addresses its own slot and no other.
 */
module ProtocolSlots {
  import opened Contracts
  import opened Queue
  import opened Deployments
  import opened Protocol
  import opened ProtocolFrames
  import opened ProtocolBase

  /** What is asked of the engine: application ids are real, and never issued twice. */
  ghost predicate FreshIds(ledger: Ledger) {
    "" !in ledger.created && forall id :: ledger.created[id] <= 1
  }

  /** The application a stage is working on is the one its job's slot holds. */
  predicate StageBound(stage: Stage, slot: Slot, slots: map<Slot, string>, created: multiset<string>) {
    match stage
    case Ensuring(_) => slot !in slots
    case Recording(_, target) => slot !in slots && target in created && target !in slots.Values
    case RollingBack(target, _) => slot in slots && slots[slot] == target
    case Building(target) => slot in slots && slots[slot] == target
    case MarkingBuild(target, _) => slot in slots && slots[slot] == target
    case AwaitingArtifact(target, _) => slot in slots && slots[slot] == target
    case Deploying(target, _) => slot in slots && slots[slot] == target
    case _ => true
  }

  ghost predicate SlotsBound(slots: map<Slot, string>, ledger: Ledger) {
    && (forall s :: s in slots ==> slots[s] in ledger.created)
    && (forall s :: ledger.bound[s] == if s in slots then 1 else 0)
    && (forall s, t :: s in slots && t in slots && s != t ==> slots[s] != slots[t])
  }

  predicate CallBound(jobs: seq<Job<Payload>>, slots: map<Slot, string>, call: EngineCall) {
    call.job < |jobs| && SlotOf(jobs[call.job].payload) in slots && slots[SlotOf(jobs[call.job].payload)] == call.app
  }

  ghost predicate CallsBound(jobs: seq<Job<Payload>>, slots: map<Slot, string>, made: set<EngineCall>) {
    forall call :: call in made ==> CallBound(jobs, slots, call)
  }

  ghost predicate Bound(w: World) {
    FreshIds(w.ledger) ==>
      && SlotsBound(w.slots, w.ledger)
      && CallsBound(w.jobs, w.slots, w.ledger.made)
      && (AtStage(w) ==> StageBound(w.pc.stage, SlotOf(w.jobs[w.pc.job].payload), w.slots, w.ledger.created))
  }

  /** A step that neither issues an application, binds a slot nor calls the engine to act. */
  predicate LeavesSlots(w: World, w': World) {
    && w'.slots == w.slots && w'.ledger.created == w.ledger.created && w'.ledger.bound == w.ledger.bound
    && w'.ledger.made == w.ledger.made
    && |w'.jobs| >= |w.jobs| && (forall j :: 0 <= j < |w.jobs| ==> w'.jobs[j].payload == w.jobs[j].payload)
  }

  lemma LeftBound(w: World, w': World)
    requires Bound(w) && LeavesSlots(w, w')
    requires AtStage(w') && FreshIds(w'.ledger) && SlotsBound(w.slots, w.ledger) ==>
      StageBound(w'.pc.stage, SlotOf(w'.jobs[w'.pc.job].payload), w.slots, w.ledger.created)
    ensures Bound(w')
  {
    assert FreshIds(w'.ledger) ==> FreshIds(w.ledger);
    if FreshIds(w.ledger) {
      forall call | call in w'.ledger.made ensures CallBound(w'.jobs, w'.slots, call) {
        assert CallBound(w.jobs, w.slots, call);
      }
    }
  }

  lemma EnvBound(w: World, e: EnvEvent)
    requires Base(w) && Bound(w) && EnvEnabled(w, e)
    ensures Bound(NextEnv(w, e))
  {
    match e
    case Crash =>
      LetGoFrame(w);
      LeftBound(w, LetGo(w));
    case Reap => LeftBound(w, OnReap(w));
    case Claim => LeftBound(w, OnClaim(w));
    case _ => LeftBound(w, NextEnv(w, e));
  }

  /** Reading the slot: what the handler then works on is what the slot holds. */
  lemma DispatchBound(w: World, p: Payload, serverless: bool)
    requires FreshIds(w.ledger) && SlotsBound(w.slots, w.ledger)
    ensures StageBound(Dispatch(w, p, serverless), SlotOf(p), w.slots, w.ledger.created)
  {
    if SlotOf(p) in w.slots {
      assert w.slots[SlotOf(p)] in w.ledger.created;
    }
  }

  lemma StartBound(w: World, serverless: bool)
    requires Bound(w) && PrepareEnabled(w, Start(serverless))
    ensures Bound(NextPrepare(w, Start(serverless)))
  {
    if FreshIds(w.ledger) {
      DispatchBound(w, w.jobs[w.pc.job].payload, serverless);
    }
    LeftBound(w, NextPrepare(w, Start(serverless)));
  }

  /** A fresh id is in no slot, because every slot holds an id issued before. */
  lemma EnsureBound(w: World, answer: AdapterResult<ProviderRef>)
    requires Bound(w) && AtStage(w) && w.pc.stage.Ensuring?
    ensures Bound(OnEnsureAnswer(w, answer))
  {
    var w' := OnEnsureAnswer(w, answer);
    if answer.Ok? && FreshIds(w'.ledger) {
      var id := answer.value.id;
      assert w'.ledger.created[id] == w.ledger.created[id] + 1;
      assert forall i :: w.ledger.created[i] <= w'.ledger.created[i];
      assert FreshIds(w.ledger) && id !in w.ledger.created;
    }
  }

  lemma BindBound(w: World)
    requires Bound(w) && AtStage(w) && w.pc.stage.Recording?
    ensures Bound(OnBindSlot(w))
  {
    var w' := OnBindSlot(w);
    if FreshIds(w.ledger) {
      forall call | call in w'.ledger.made ensures CallBound(w'.jobs, w'.slots, call) {
        assert CallBound(w.jobs, w.slots, call);
      }
    }
  }

  lemma PrepareBound(w: World, e: PrepareEvent)
    requires Base(w) && Bound(w) && PrepareEnabled(w, e)
    ensures Bound(NextPrepare(w, e))
  {
    match e
    case Start(serverless) => StartBound(w, serverless);
    case EnsureAnswer(answer) => EnsureBound(w, answer);
    case BindSlot => BindBound(w);
    case _ => LeftBound(w, NextPrepare(w, e));
  }

  lemma CalledBound(w: World, w': World)
    requires Bound(w) && AtAction(w)
    requires w'.slots == w.slots && w'.jobs == w.jobs
    requires w'.ledger.created == w.ledger.created && w'.ledger.bound == w.ledger.bound
    requires w'.ledger.made == w.ledger.made + {CallAt(w.pc.job, w.pc.stage)}
    requires AtStage(w') ==>
               w'.pc.stage.Marking? || w'.pc.stage.Reading? || w'.pc.stage.Returned? || w'.pc.stage.Settling?
    ensures Bound(w')
  {
  }

  lemma ActBound(w: World, e: ActEvent)
    requires Base(w) && Bound(w) && ActEnabled(w, e)
    ensures Bound(NextAct(w, e))
  {
    match e
    case ActionAnswer(answer) => CalledBound(w, OnActionAnswer(w, answer));
    case ActionThrew(_) => CalledBound(w, NextAct(w, e));
    case ActionLost => CalledBound(w, NextAct(w, e));
    case MarkHandle => LeftBound(w, OnMarkHandle(w));
    case StateAnswer(_, answer) => LeftBound(w, OnStateAnswer(w, answer));
    case Throw(_) => LeftBound(w, NextAct(w, e));
  }

  lemma SettleBound(w: World, e: SettleEvent)
    requires Base(w) && Bound(w) && SettleEnabled(w, e)
    ensures Bound(NextSettle(w, e))
  {
    match e
    case WriteRow =>
      if IsDeployment(w.jobs[w.pc.job]) { assert RowMatches(w.jobs[w.pc.job], w.rows); }
      WriteRowFrame(w);
      LeftBound(w, OnWriteRow(w));
    case WriteQueue => LeftBound(w, OnWriteQueue(w));
    case _ => LeftBound(w, NextSettle(w, e));
  }

  lemma SweepBound(w: World, e: SweepEvent)
    requires Base(w) && Bound(w) && SweepEnabled(w, e)
    ensures Bound(NextSweep(w, e))
  {
    LeftBound(w, NextSweep(w, e));
  }

  lemma StepBound(w: World, e: Event)
    requires Base(w) && Bound(w) && Enabled(w, e)
    ensures Bound(Next(w, e))
  {
    match e
    case Env(env) => EnvBound(w, env);
    case Prepare(prepare) => PrepareBound(w, prepare);
    case Act(act) => ActBound(w, act);
    case Settled(settle) => SettleBound(w, settle);
    case Swept(sweep) => SweepBound(w, sweep);
  }
}
