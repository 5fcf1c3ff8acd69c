/** The protocol's promises, over every run. */
module ProtocolRuns {
  import opened Contracts
  import opened Deployments
  import opened Protocol
  import opened ProtocolFrames
  import opened ProtocolBase
  import opened ProtocolCalls
  import opened ProtocolClaims
  import opened ProtocolSuccess
  import opened ProtocolUsage
  import opened ProtocolSlots
  import opened ProtocolHistory

  ghost predicate Invariant(w: World) {
    Base(w) && Covered(w) && AllPaced(w) && CallsFit(w) && Honest(w) && AllCounted(w) && Bound(w)
  }

  lemma InitialInvariant(w: World)
    requires Initial(w)
    ensures Invariant(w)
  {
    InitialBase(w);
  }

  lemma StepInvariant(w: World, e: Event)
    requires Invariant(w) && Enabled(w, e)
    ensures Invariant(Next(w, e))
  {
    StepBase(w, e);
    StepCovers(w, e);
    StepPaced(w, e);
    StepFits(w, e);
    StepHonest(w, e);
    StepCounted(w, e);
    StepBound(w, e);
  }

  lemma {:induction false} RunInvariant(states: seq<World>, events: seq<Event>, i: nat)
    requires Run(states, events) && i < |states|
    ensures Invariant(states[i])
  {
    if i == 0 {
      InitialInvariant(states[0]);
    } else {
      RunInvariant(states, events, i - 1);
      StepInvariant(states[i - 1], events[i - 1]);
    }
  }

  ghost function Last(states: seq<World>): World
    requires |states| > 0
  {
    states[|states| - 1]
  }

  // ---------------------------------------------------------------- engine calls

  /**
   In every run, against any engine, with crashes and reaps anywhere: the deploy and
   rollback calls made for a job are at most its attempt budget, plus one for each
   time the sweep settled its row under it, plus one for each deferral after a call
   whose row, once the outcome was mirrored or the mirroring lost, held nothing to poll.
   */
  lemma CallsAreBounded(states: seq<World>, events: seq<Event>, j: nat)
    requires Run(states, events) && j < |Last(states).jobs| && IsDeployment(Last(states).jobs[j])
    ensures var w, job := Last(states), Last(states).jobs[j];
            w.ledger.calls[j] <= job.maxAttempts + w.ledger.early[RowKey(job)] + w.ledger.unaddressed[j]
  {
    RunInvariant(states, events, |states| - 1);
    CoveredBound(Last(states), j);
  }

  /**
   What the executor needs of an engine: accepted work is in flight under a deployment
   reference, and a refusal is final.
   */
  predicate Addressing(answer: AdapterResult<ProviderRef>) {
    match answer
    case Ok(status, ref) => InFlight(status) && ref.resourceType == DeploymentRef
    case Err(status, _) => !InFlight(status)
  }

  /** The event is no deploy or rollback call answered in another way. */
  predicate Addresses(e: Event) {
    e.Act? && e.act.ActionAnswer? ==> Addressing(e.act.action)
  }

  /** Every answer in the run came from an engine that addresses its work. */
  ghost predicate AllAddress(events: seq<Event>) {
    forall i :: 0 <= i < |events| ==> Addresses(events[i])
  }

  /** Under such an engine, a deferral after a call always leaves a build to poll. */
  predicate StageAddressed(stage: Stage, pollable: bool) {
    match stage
    case Marking(accepted, _, ref, _) => InFlight(accepted) && ref.resourceType == DeploymentRef
    case Reading(_, _, _, _) => pollable
    case Returned(called, execution) => called ==> pollable || !InFlight(execution.status)
    case Settling(called, write, result, _) =>
      called && write.DeferWrite? ==> pollable && InFlight(AppliedStatus(result))
    case _ => true
  }

  predicate MirrorAddressed(mirror: Mirror, pollable: bool) {
    mirror.Applying? && mirror.owes ==> pollable && InFlight(AppliedStatus(mirror.result))
  }

  predicate Addressed(w: World) {
    && w.ledger.unaddressed == multiset{}
    && (AtStage(w) ==> StageAddressed(w.pc.stage, Pollable(w.rows, RowKey(w.jobs[w.pc.job]))))
    && (AtMirror(w) ==> MirrorAddressed(w.pc.mirror, Pollable(w.rows, RowKey(w.jobs[w.pc.job]))))
  }

  lemma DispatchAddressed(w: World, p: Payload, serverless: bool)
    ensures StageAddressed(Dispatch(w, p, serverless), false)
  {
  }

  lemma PrepareAddressed(w: World, e: PrepareEvent)
    requires Base(w) && Addressed(w) && PrepareEnabled(w, e)
    ensures Addressed(NextPrepare(w, e))
  {
    match e
    case MarkBuild =>
      assert RowMatches(w.jobs[w.pc.job], w.rows);
      MarkBuildFrame(w);
    case Start(serverless) => DispatchAddressed(w, w.jobs[w.pc.job].payload, serverless);
    case _ => PrepareFrame(w, e);
  }

  lemma ActAddressed(w: World, e: ActEvent)
    requires Base(w) && Addressed(w) && ActEnabled(w, e) && Addresses(Act(e))
    ensures Addressed(NextAct(w, e))
  {
    if e.MarkHandle? {
      assert RowMatches(w.jobs[w.pc.job], w.rows);
      MarkHandleFrame(w);
    } else {
      ActFrame(w, e);
    }
  }

  lemma DecideAddressed(w: World)
    requires Addressed(w) && AtStage(w) && w.pc.stage.Returned?
    ensures Addressed(OnDecide(w))
  {
    DeferredIsInFlight(w.pc.stage.execution, w.jobs[w.pc.job].createdAt, w.now, w.cfg.pollCeilingMs);
  }

  /** A build in flight that is mirrored onto a row that could be polled leaves it so: nothing is left owing. */
  lemma WriteRowAddressed(w: World)
    requires Addressed(w) && AtMirror(w) && w.pc.mirror.Applying?
    ensures Addressed(OnWriteRow(w))
  {
  }

  lemma SettleAddressed(w: World, e: SettleEvent)
    requires Addressed(w) && SettleEnabled(w, e)
    ensures Addressed(NextSettle(w, e))
  {
    match e
    case Decide => DecideAddressed(w);
    case WriteRow => WriteRowAddressed(w);
    case _ =>
  }

  lemma SweepAddressed(w: World, e: SweepEvent)
    requires Addressed(w) && SweepEnabled(w, e)
    ensures Addressed(NextSweep(w, e))
  {
  }

  lemma StepAddressed(w: World, e: Event)
    requires Base(w) && Addressed(w) && Enabled(w, e) && Addresses(e)
    ensures Addressed(Next(w, e))
  {
    match e
    case Env(env) => EnvAddressed(w, env);
    case Prepare(prepare) => PrepareAddressed(w, prepare);
    case Act(act) => ActAddressed(w, act);
    case Settled(settle) => SettleAddressed(w, settle);
    case Swept(sweep) => SweepAddressed(w, sweep);
  }

  lemma EnvAddressed(w: World, e: EnvEvent)
    requires Base(w) && Addressed(w) && EnvEnabled(w, e)
    ensures Addressed(NextEnv(w, e))
  {
    if e.CreateRow? && (w.pc.Holding? || w.pc.Mirroring?) && IsDeployment(w.jobs[w.pc.job]) {
      assert RowMatches(w.jobs[w.pc.job], w.rows);
    }
  }

  lemma {:induction false} RunAddressed(states: seq<World>, events: seq<Event>, i: nat)
    requires Run(states, events) && i < |states|
    requires AllAddress(events)
    ensures Addressed(states[i])
  {
    if i > 0 {
      RunAddressed(states, events, i - 1);
      RunInvariant(states, events, i - 1);
      StepAddressed(states[i - 1], events[i - 1]);
    }
  }

  /** With an engine that addresses its work, and no row settled under its job, the budget alone bounds the calls. */
  lemma BudgetBoundsCalls(states: seq<World>, events: seq<Event>, j: nat)
    requires Run(states, events) && j < |Last(states).jobs| && IsDeployment(Last(states).jobs[j])
    requires AllAddress(events)
    ensures Last(states).ledger.calls[j]
            <= Last(states).jobs[j].maxAttempts + Last(states).ledger.early[RowKey(Last(states).jobs[j])]
  {
    CallsAreBounded(states, events, j);
    RunAddressed(states, events, |states| - 1);
  }

  // ---------------------------------------------------------------- claims

  /** Every job is claimed a bounded number of times, whatever the engine answers. */
  lemma ClaimsAreBounded(states: seq<World>, events: seq<Event>, j: nat)
    requires Run(states, events) && j < |Last(states).jobs| && Last(states).cfg.pollBackoffMs > 0
    ensures Last(states).ledger.claims[j]
              <= Last(states).jobs[j].maxAttempts
                + CeilDiv(Last(states).cfg.pollCeilingMs, Last(states).cfg.pollBackoffMs)
  {
    RunInvariant(states, events, |states| - 1);
    PacedBound(Last(states), j);
  }

  /** A job never costs more deploy and rollback calls than it has had claims. */
  lemma CallsNeverOutrunClaims(states: seq<World>, events: seq<Event>, j: nat)
    requires Run(states, events)
    ensures Last(states).ledger.calls[j] <= Last(states).ledger.claims[j]
  {
    RunInvariant(states, events, |states| - 1);
    assert CallFits(Last(states), j);
  }

  /**
   So against every engine, whether it leaves handles to poll or not and whatever the
   sweep settles, the calls for a job are bounded by its budget and the clock.
   */
  lemma CallsAreBoundedByTheClock(states: seq<World>, events: seq<Event>, j: nat)
    requires Run(states, events) && j < |Last(states).jobs| && Last(states).cfg.pollBackoffMs > 0
    ensures Last(states).ledger.calls[j]
              <= Last(states).jobs[j].maxAttempts
                + CeilDiv(Last(states).cfg.pollCeilingMs, Last(states).cfg.pollBackoffMs)
  {
    CallsNeverOutrunClaims(states, events, j);
    ClaimsAreBounded(states, events, j);
  }

  /** Every claim but the one still running has ended exactly once: in a queue call or in a reap. */
  lemma EveryClaimEndsOnce(states: seq<World>, events: seq<Event>, j: nat)
    requires Run(states, events) && j < |Last(states).jobs|
    ensures Last(states).ledger.claims[j]
            == Last(states).ledger.ends[j] + (if Last(states).jobs[j].state == JobRunning then 1 else 0)
    ensures Last(states).ledger.claims[j] == Last(states).jobs[j].attempts + Last(states).ledger.deferrals[j]
  {
    RunInvariant(states, events, |states| - 1);
    assert JobPaced(Last(states), j);
  }

  /** A job that has succeeded or failed is never left: it is the same job in every later state. */
  lemma {:induction false} FinishedForever(states: seq<World>, events: seq<Event>, i: nat, k: nat, j: nat)
    requires Run(states, events) && i <= k < |states|
    requires j < |states[i].jobs| && TerminalJob(states[i].jobs[j].state)
    ensures j < |states[k].jobs| && states[k].jobs[j] == states[i].jobs[j]
  {
    if i < k {
      FinishedForever(states, events, i, k - 1, j);
      RunInvariant(states, events, k - 1);
      FinishedStays(states[k - 1], events[k - 1], j);
    }
  }

  // ---------------------------------------------------------------- success, pointer and usage

  /**
   No run ends with a success the engine did not report for that deployment: a job's
   rests on a state that was read, or on an acceptance whose read-back was refused; a
   row's also on an acceptance alone, or on a refusal that carried the status.
   */
  lemma SuccessIsNeverInvented(states: seq<World>, events: seq<Event>)
    requires Run(states, events)
    ensures var w := Last(states);
            && (forall j :: 0 <= j < |w.jobs| && w.jobs[j].state == JobSucceeded ==>
                  RowKey(w.jobs[j]) in ForJobs(w.ledger.heard))
            && (forall k :: k in w.rows && w.rows[k].status == Succeeded ==> k in ForRows(w.ledger.heard))
            && w.ledger.heard.guessed <= w.ledger.heard.accepted
  {
    RunInvariant(states, events, |states| - 1);
  }

  /**
   The production pointer names a production deployment of that project, not staged,
   recorded as succeeded on what a job may rest on.
   */
  lemma LiveIsASuccess(states: seq<World>, events: seq<Event>, project: Key)
    requires Run(states, events) && project in Last(states).live
    ensures var w := Last(states); var key := w.live[project];
            && key in w.rows && w.rows[key].project == project && w.rows[key].kind == Production && !w.rows[key].staged
            && key in w.ledger.recorded && key in ForJobs(w.ledger.heard)
            && (w.ledger.early[key] == 0 ==> w.rows[key].status == Succeeded)
  {
    RunInvariant(states, events, |states| - 1);
    var w := Last(states);
    assert LiveOk(project, w.live[project], w.rows, w.ledger) && LiveHolds(w, w.live[project]);
  }

  /** What a succeeded job rests on was read, when no answer accepted an action as already succeeded. */
  lemma ForJobsWasRead(states: seq<World>, events: seq<Event>, key: Key)
    requires Run(states, events) && key in ForJobs(Last(states).ledger.heard)
    requires forall k :: 0 <= k < |events| ==> AcceptsPlainly(events[k])
    ensures WasRead(states, events, key)
  {
    SuccessIsNeverInvented(states, events);
    AcceptedExactly(states, events);
    HeardExactly(states, events, |events|, key, ReadRun);
    HeardExactly(states, events, |events|, key, ReadElsewhere);
  }

  /**
   Against an engine that never answers a deploy or rollback as already succeeded,
   every succeeded job and every live deployment had the engine's own state read as
   succeeded: no acceptance, no timeout, no ceiling and no refusal makes a success.
   */
  lemma SuccessWasRead(states: seq<World>, events: seq<Event>)
    requires Run(states, events)
    requires forall k :: 0 <= k < |events| ==> AcceptsPlainly(events[k])
    ensures var w := Last(states);
            && (forall j :: 0 <= j < |w.jobs| && w.jobs[j].state == JobSucceeded ==>
                  WasRead(states, events, RowKey(w.jobs[j])))
            && (forall p :: p in w.live ==> WasRead(states, events, w.live[p]))
  {
    var w := Last(states);
    SuccessIsNeverInvented(states, events);
    forall j | 0 <= j < |w.jobs| && w.jobs[j].state == JobSucceeded ensures WasRead(states, events, RowKey(w.jobs[j])) {
      ForJobsWasRead(states, events, RowKey(w.jobs[j]));
    }
    forall p | p in w.live ensures WasRead(states, events, w.live[p]) {
      LiveIsASuccess(states, events, p);
      ForJobsWasRead(states, events, w.live[p]);
    }
  }

  /**
   The executor took an acceptance at its word: an action was accepted as succeeded, and
   later its state was refused.
   */
  ghost predicate WasGuessed(states: seq<World>, events: seq<Event>, key: Key)
    requires |events| <= |states|
  {
    exists i, m ::
      0 <= i < m < |events| && Tells(states[i], events[i], key, Acceptance) && Tells(states[m], events[m], key, Guess)
  }

  /** A state is refused after an acceptance only when there was one. */
  lemma GuessFollowsAcceptance(states: seq<World>, events: seq<Event>, m: nat, key: Key)
    requires Run(states, events) && m < |events| && Tells(states[m], events[m], key, Guess)
    ensures ToldBefore(states, events, m, key, Acceptance)
  {
    RunInvariant(states, events, m);
    HeardExactly(states, events, m, key, Acceptance);
  }

  lemma GuessedAfterAcceptance(states: seq<World>, events: seq<Event>, key: Key)
    requires Run(states, events) && ToldBefore(states, events, |events|, key, Guess)
    ensures WasGuessed(states, events, key)
  {
    var m :| 0 <= m < |events| && Tells(states[m], events[m], key, Guess);
    GuessFollowsAcceptance(states, events, m, key);
    var i :| 0 <= i < m && Tells(states[i], events[i], key, Acceptance);
  }

  lemma ForJobsWasReadOrGuessed(states: seq<World>, events: seq<Event>, key: Key)
    requires Run(states, events) && key in ForJobs(Last(states).ledger.heard)
    ensures WasRead(states, events, key) || WasGuessed(states, events, key)
  {
    HeardExactly(states, events, |events|, key, ReadRun);
    HeardExactly(states, events, |events|, key, ReadElsewhere);
    HeardExactly(states, events, |events|, key, Guess);
    if ToldBefore(states, events, |events|, key, Guess) { GuessedAfterAcceptance(states, events, key); }
  }

  /** Against any engine at all, a success that was not read was guessed. */
  lemma SuccessWasReadOrGuessed(states: seq<World>, events: seq<Event>)
    requires Run(states, events)
    ensures var w := Last(states);
            && (forall j :: 0 <= j < |w.jobs| && w.jobs[j].state == JobSucceeded ==>
                  WasRead(states, events, RowKey(w.jobs[j])) || WasGuessed(states, events, RowKey(w.jobs[j])))
            && (forall p :: p in w.live ==> WasRead(states, events, w.live[p]) || WasGuessed(states, events, w.live[p]))
  {
    var w := Last(states);
    SuccessIsNeverInvented(states, events);
    forall j | 0 <= j < |w.jobs| && w.jobs[j].state == JobSucceeded
      ensures WasRead(states, events, RowKey(w.jobs[j])) || WasGuessed(states, events, RowKey(w.jobs[j]))
    {
      ForJobsWasReadOrGuessed(states, events, RowKey(w.jobs[j]));
    }
    forall p | p in w.live ensures WasRead(states, events, w.live[p]) || WasGuessed(states, events, w.live[p]) {
      LiveIsASuccess(states, events, p);
      ForJobsWasReadOrGuessed(states, events, w.live[p]);
    }
  }

  /**
   Against an engine whose refusals never carry the status succeeded, a succeeded row
   was read or accepted as succeeded; if it does not accept that way either, it was read.
   */
  lemma RowSuccessWasSaid(states: seq<World>, events: seq<Event>, key: Key)
    requires Run(states, events) && key in Last(states).rows && Last(states).rows[key].status == Succeeded
    requires forall k :: 0 <= k < |events| ==> RefusesPlainly(states[k], events[k])
    ensures WasRead(states, events, key) || ToldBefore(states, events, |events|, key, Acceptance)
    ensures (forall k :: 0 <= k < |events| ==> AcceptsPlainly(events[k])) ==> WasRead(states, events, key)
  {
    SuccessIsNeverInvented(states, events);
    ContradictedExactly(states, events);
    AcceptedExactly(states, events);
    HeardExactly(states, events, |events|, key, ReadRun);
    HeardExactly(states, events, |events|, key, ReadElsewhere);
    HeardExactly(states, events, |events|, key, Acceptance);
  }

  /** A deployment costs one unit of usage at most, plus one for each time the sweep settled its row under its job. */
  lemma UsageIsCountedOnce(states: seq<World>, events: seq<Event>, key: Key)
    requires Run(states, events)
    ensures Last(states).usage[key] <= 1 + Last(states).ledger.early[key]
  {
    RunInvariant(states, events, |states| - 1);
    CountedBound(Last(states), key);
  }

  // ---------------------------------------------------------------- slots

  /** With fresh ids: each slot is written at most once, and no two slots share an application. */
  lemma SlotsAreDistinct(states: seq<World>, events: seq<Event>, s: Slot, t: Slot)
    requires Run(states, events) && FreshIds(Last(states).ledger)
    ensures Last(states).ledger.bound[s] <= 1
    ensures s in Last(states).slots && t in Last(states).slots && s != t ==>
              Last(states).slots[s] != Last(states).slots[t]
  {
    RunInvariant(states, events, |states| - 1);
  }

  /** Every deploy or rollback addressed its own job's slot. A keyed preview therefore never touches production. */
  lemma CallsAddressOwnSlot(states: seq<World>, events: seq<Event>, call: EngineCall)
    requires Run(states, events) && FreshIds(Last(states).ledger) && call in Last(states).ledger.made
    ensures var w := Last(states);
            && call.job < |w.jobs|
            && SlotOf(w.jobs[call.job].payload) in w.slots && w.slots[SlotOf(w.jobs[call.job].payload)] == call.app
            && (IsPreview(w.jobs[call.job].payload) ==>
                  forall p :: ProductionSlot(p) in w.slots ==> w.slots[ProductionSlot(p)] != call.app)
  {
    RunInvariant(states, events, |states| - 1);
    assert CallBound(Last(states).jobs, Last(states).slots, call);
  }

  /**
   A preview's calls keep away from its project's production application exactly when
   the preview carries a key.
   */
  lemma PreviewNeedsItsKey(states: seq<World>, events: seq<Event>, call: EngineCall)
    requires Run(states, events) && FreshIds(Last(states).ledger) && call in Last(states).ledger.made
    requires call.job < |Last(states).jobs| && Last(states).jobs[call.job].payload.kind == Preview
    ensures var w := Last(states); var p := w.jobs[call.job].payload; var production := ProductionSlot(ProjectOf(p));
            (production in w.slots && w.slots[production] == call.app) <==> p.previewKey.None?
  {
    CallsAddressOwnSlot(states, events, call);
  }
}
