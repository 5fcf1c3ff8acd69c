/**
 Where a success comes from.

 A job says `succeeded` only after the engine's state was read as succeeded for its
 deployment, or after an action was accepted with that status and the state was then
 refused. A row may also say it on an acceptance alone, whose status is written with
 the handle, and on a refusal that carries the status. The production pointer names
 only production deployments that were not staged and that a job or the sweep
 succeeded for.
 */
module ProtocolSuccess {
  import opened Contracts
  import opened Queue
  import opened Deployments
  import opened Reconcile
  import opened Protocol
  import opened ProtocolFrames
  import opened ProtocolBase

  // ---------------------------------------------------------------- where a success can be on its way

  /** What a succeeded job, and the pointer, can rest on. */
  function ForJobs(h: Heard): set<Key> {
    h.read + h.elsewhere + h.guessed
  }

  /** What a succeeded row can rest on. */
  function ForRows(h: Heard): set<Key> {
    ForJobs(h) + h.accepted + h.contradicted
  }

  /** An action accepted as succeeded, whose state has not been read yet. */
  predicate CarriesAcceptance(stage: Stage) {
    (stage.Marking? || stage.Reading?) && stage.accepted == Succeeded
  }

  /** A success on its way to the job. */
  predicate CarriesToJob(stage: Stage) {
    match stage
    case Returned(_, execution) => execution.status == Succeeded && execution.reason.None?
    case Settling(_, write, _, _) => write.CompleteWrite?
    case _ => false
  }

  /** A status of success on its way to the row. */
  predicate CarriesToRow(stage: Stage) {
    || (stage.Returned? && stage.execution.status == Succeeded)
    || (stage.Settling? && AppliedStatus(stage.result) == Succeeded)
  }

  /** A claim completes exactly when the applier will mirror a success as one. */
  predicate Agrees(stage: Stage) {
    stage.Settling? ==> (stage.write.CompleteWrite? <==> stage.result.Ok? && stage.result.value.status == Succeeded)
  }

  predicate PcConfirmed(pc: Pc, jobs: seq<Job<Payload>>, h: Heard) {
    match pc
    case Idle => true
    case Holding(j, stage) =>
      && Agrees(stage)
      && (j < |jobs| && CarriesAcceptance(stage) ==> RowKey(jobs[j]) in h.accepted)
      && (j < |jobs| && CarriesToJob(stage) ==> RowKey(jobs[j]) in ForJobs(h))
      && (j < |jobs| && CarriesToRow(stage) ==> RowKey(jobs[j]) in ForRows(h))
    case Mirroring(j, mirror) =>
      j < |jobs| ==>
        if mirror.Applying?
        then (AppliedStatus(mirror.result) == Succeeded ==> RowKey(jobs[j]) in ForRows(h))
          && (mirror.result.Ok? && mirror.result.value.status == Succeeded ==> jobs[j].state == JobSucceeded)
        else jobs[j].state == JobSucceeded
    case Sweeping(visit, _, _) =>
      || (visit.Writing? && visit.decision.Settle? && visit.decision.status == Succeeded)
      || visit.PromotingRow? || visit.MeteringRow?
      ==> visit.row.key in h.read + h.elsewhere
  }

  ghost predicate RowsConfirmed(rows: map<Key, Row>, ledger: Ledger) {
    && (forall k :: k in rows && rows[k].status == Succeeded ==> k in ledger.recorded)
    && ledger.recorded <= ForRows(ledger.heard)
  }

  ghost predicate JobsConfirmed(jobs: seq<Job<Payload>>, h: Heard) {
    forall j :: 0 <= j < |jobs| && jobs[j].state == JobSucceeded ==> RowKey(jobs[j]) in ForJobs(h)
  }

  /** The pointer's promise about one project. */
  predicate LiveOk(project: Key, key: Key, rows: map<Key, Row>, ledger: Ledger) {
    && key in rows && key in ledger.recorded && key in ForJobs(ledger.heard)
    && rows[key].project == project && rows[key].kind == Production && !rows[key].staged
  }

  ghost predicate AllLiveOk(w: World) {
    forall p :: p in w.live ==> LiveOk(p, w.live[p], w.rows, w.ledger)
  }

  ghost predicate Honest(w: World) {
    && PcConfirmed(w.pc, w.jobs, w.ledger.heard)
    && RowsConfirmed(w.rows, w.ledger)
    && JobsConfirmed(w.jobs, w.ledger.heard)
    && AllLiveOk(w)
    && w.ledger.heard.guessed <= w.ledger.heard.accepted
  }

  // ---------------------------------------------------------------- steps

  /** Steps that add no row status and no finished job only have to say what they carry. */
  predicate Carried(w: World, w': World) {
    && w'.jobs == w.jobs && w'.rows == w.rows && w'.live == w.live
    && w'.ledger.recorded == w.ledger.recorded
    && HeardMore(w.ledger.heard, w'.ledger.heard) && w'.ledger.heard.guessed <= w'.ledger.heard.accepted
    && PcConfirmed(w'.pc, w.jobs, w'.ledger.heard)
  }

  lemma CarriedHonest(w: World, w': World)
    requires Honest(w) && Carried(w, w')
    ensures Honest(w')
  {
  }

  /** A status written to one row: if it is a success, the engine has said so. */
  lemma WrittenHonest(w: World, w': World, key: Key, row: Row)
    requires Honest(w) && key in w.rows && SameRequest(w.rows[key], row)
    requires row.status == Succeeded ==> key in ForRows(w.ledger.heard)
    requires w'.rows == w.rows[key := row] && w'.jobs == w.jobs && w'.live == w.live
    requires w'.ledger.heard == w.ledger.heard
    requires w'.ledger.recorded == if row.status == Succeeded then w.ledger.recorded + {key} else w.ledger.recorded
    requires PcConfirmed(w'.pc, w.jobs, w.ledger.heard)
    ensures Honest(w')
  {
  }

  lemma EnvHonest(w: World, e: EnvEvent)
    requires Base(w) && Honest(w) && EnvEnabled(w, e)
    ensures Honest(NextEnv(w, e))
  {
    var w' := NextEnv(w, e);
    match e
    case Reap =>
      forall j | 0 <= j < |w'.jobs| && w'.jobs[j].state == JobSucceeded
        ensures RowKey(w'.jobs[j]) in ForJobs(w'.ledger.heard)
      {
        assert w'.jobs[j] == ReapJob(w.jobs[j], w.now);
      }
    case Submit(input) =>
      if w.pc.Holding? || w.pc.Mirroring? {
        assert w'.jobs[w.pc.job] == w.jobs[w.pc.job];
      }
    case _ =>
  }

  lemma PrepareHonest(w: World, e: PrepareEvent)
    requires Base(w) && Honest(w) && PrepareEnabled(w, e)
    ensures Honest(NextPrepare(w, e))
  {
    var w' := NextPrepare(w, e);
    if e.MarkBuild? {
      var key := RowKey(w.jobs[w.pc.job]);
      assert RowMatches(w.jobs[w.pc.job], w.rows);
      WrittenHonest(w, w', key, MarkRowBuild(w.rows[key], w.pc.stage.build));
    } else {
      PrepareCarries(w, e);
      CarriedHonest(w, w');
    }
  }

  lemma EnsureCarries(w: World, answer: AdapterResult<ProviderRef>)
    requires AtStage(w) && w.pc.stage.Ensuring? && Honest(w)
    ensures Carried(w, OnEnsureAnswer(w, answer))
  {
  }

  predicate CarriesNothing(stage: Stage) {
    Agrees(stage) && !CarriesAcceptance(stage) && !CarriesToJob(stage) && !CarriesToRow(stage)
  }

  lemma DispatchCarriesNothing(w: World, p: Payload, serverless: bool)
    ensures CarriesNothing(Dispatch(w, p, serverless))
  {
  }

  /** Nothing the handler does before it hears from the engine is on its way to a success. */
  lemma PrepareCarriesNothing(w: World, e: PrepareEvent)
    requires PrepareEnabled(w, e) && !e.EnsureAnswer? && NextPrepare(w, e).pc.Holding?
    ensures CarriesNothing(NextPrepare(w, e).pc.stage)
  {
    match e
    case Start(serverless) => DispatchCarriesNothing(w, w.jobs[w.pc.job].payload, serverless);
    case NoHandler => assert CarriesNothing(OnNoHandler(w).pc.stage);
    case BindSlot => assert CarriesNothing(OnBindSlot(w).pc.stage);
    case _ =>
  }

  lemma PrepareCarries(w: World, e: PrepareEvent)
    requires PrepareEnabled(w, e) && !e.MarkBuild? && Honest(w)
    ensures Carried(w, NextPrepare(w, e))
  {
    PrepareFrame(w, e);
    if e.EnsureAnswer? {
      EnsureCarries(w, e.ensured);
    } else {
      PrepareCarriesNothing(w, e);
    }
  }

  lemma MarkHandleHonest(w: World)
    requires Base(w) && Honest(w) && AtStage(w) && w.pc.stage.Marking?
    ensures Honest(OnMarkHandle(w))
  {
    var at := w.pc.stage;
    var key := RowKey(w.jobs[w.pc.job]);
    assert RowMatches(w.jobs[w.pc.job], w.rows);
    WrittenHonest(w, OnMarkHandle(w), key, MarkRow(w.rows[key], at.accepted, Some(at.resolved), HandleOf(at.ref)));
  }

  lemma ActionCarries(w: World, answer: AdapterResult<ProviderRef>)
    requires AtAction(w) && Honest(w)
    ensures Carried(w, OnActionAnswer(w, answer))
  {
  }

  lemma StateCarries(w: World, answer: AdapterResult<DeploymentState>)
    requires AtStage(w) && (w.pc.stage.Polling? || w.pc.stage.Reading?)
    requires Honest(w)
    ensures Carried(w, OnStateAnswer(w, answer))
  {
  }

  lemma ActHonest(w: World, e: ActEvent)
    requires Base(w) && Honest(w) && ActEnabled(w, e)
    ensures Honest(NextAct(w, e))
  {
    match e
    case MarkHandle => MarkHandleHonest(w);
    case ActionAnswer(answer) =>
      ActionCarries(w, answer);
      CarriedHonest(w, OnActionAnswer(w, answer));
    case StateAnswer(_, answer) =>
      StateCarries(w, answer);
      CarriedHonest(w, OnStateAnswer(w, answer));
    case _ => CarriedHonest(w, NextAct(w, e));
  }

  /** The processor completes a claim only on the executor's own success, and hands the applier the same answer. */
  lemma ClassifyHonest(x: ExecutionResult, createdAt: nat, now: nat, ceilingMs: nat)
    ensures var s := Classify(HandlerOutcome(x), createdAt, now, ceilingMs);
            && (s.write.CompleteWrite? <==> s.result.Ok? && s.result.value.status == Succeeded)
            && (s.write.CompleteWrite? ==> x.status == Succeeded && x.reason.None?)
            && (AppliedStatus(s.result) == Succeeded ==> x.status == Succeeded)
  {
  }

  lemma WriteQueueHonest(w: World)
    requires Base(w) && Honest(w) && AtStage(w) && w.pc.stage.Settling?
    ensures Honest(OnWriteQueue(w))
  {
  }

  lemma WriteRowHonest(w: World)
    requires Base(w) && Honest(w) && AtMirror(w) && w.pc.mirror.Applying?
    ensures Honest(OnWriteRow(w))
  {
    var job := w.jobs[w.pc.job];
    if IsDeployment(job) {
      assert RowMatches(job, w.rows);
      WrittenHonest(w, OnWriteRow(w), RowKey(job), ApplyToRow(w.rows[RowKey(job)], w.pc.mirror.result, w.now));
    }
  }

  lemma PromoteHonest(w: World)
    requires Base(w) && Honest(w) && SettleEnabled(w, Promote)
    ensures Honest(NextSettle(w, Promote))
  {
    assert RowMatches(w.jobs[w.pc.job], w.rows);
  }

  lemma SettleHonest(w: World, e: SettleEvent)
    requires Base(w) && Honest(w) && SettleEnabled(w, e)
    ensures Honest(NextSettle(w, e))
  {
    match e
    case Decide =>
      ClassifyHonest(w.pc.stage.execution, w.jobs[w.pc.job].createdAt, w.now, w.cfg.pollCeilingMs);
      CarriedHonest(w, OnDecide(w));
    case WriteQueue => WriteQueueHonest(w);
    case WriteRow => WriteRowHonest(w);
    case Promote => PromoteHonest(w);
    case Meter =>
  }

  lemma SweepWriteHonest(w: World)
    requires Base(w) && Honest(w) && w.pc.Sweeping? && w.pc.visit.Writing? && w.pc.visit.decision.Settle?
    ensures Honest(OnSweepWrite(w))
  {
    var row, d := w.pc.visit.row, w.pc.visit.decision;
    assert ([row] + w.pc.rest)[0] == row;
    WrittenHonest(w, OnSweepWrite(w), row.key,
                  SettleRow(w.rows[row.key], d.status, d.url, d.reason, row.row.app, row.row.handle, None, w.pc.at));
  }

  /** A sweep decides a success only from the engine's answer: no ceiling and no refusal yields one. */
  lemma DecisionsHonest(row: Row, answer: AdapterResult<DeploymentState>, at: nat, hardMs: nat)
    ensures var d := DecideAnswered(row, answer, at, hardMs);
            d.Settle? && d.status == Succeeded ==> answer.Ok? && answer.value.status == Succeeded
    ensures var d := DecideUnreached(row, at, hardMs);
            d.Settle? ==> d.status == Failed
  {
  }

  lemma SweepHonest(w: World, e: SweepEvent)
    requires Base(w) && Honest(w) && SweepEnabled(w, e)
    ensures Honest(NextSweep(w, e))
  {
    match e
    case SweepWrite => SweepWriteHonest(w);
    case SweepReach =>
      DecisionsHonest(w.pc.rest[0].row, Err(Failed, ""), w.pc.at, w.cfg.hardCeilingMs);
      CarriedHonest(w, OnSweepReach(w));
    case SweepAnswer(asked, answer) =>
      DecisionsHonest(w.pc.visit.row.row, answer, w.pc.at, w.cfg.hardCeilingMs);
      CarriedHonest(w, OnSweepAnswer(w, asked, answer));
    case _ =>
  }

  lemma StepHonest(w: World, e: Event)
    requires Base(w) && Honest(w) && Enabled(w, e)
    ensures Honest(Next(w, e))
  {
    match e
    case Env(env) => EnvHonest(w, env);
    case Prepare(prepare) => PrepareHonest(w, prepare);
    case Act(act) => ActHonest(w, act);
    case Settled(settle) => SettleHonest(w, settle);
    case Swept(sweep) => SweepHonest(w, sweep);
  }
}
