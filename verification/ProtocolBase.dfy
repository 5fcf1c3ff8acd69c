/** What every step of the protocol keeps about its own bookkeeping; the deeper invariants rest on this one. */
module ProtocolBase {
  import opened Contracts
  import opened Queue
  import opened Deployments
  import opened Reconcile
  import opened Protocol

  /** A job's row exists and was recorded with the same project, kind and staging. */
  predicate RowMatches(job: Job<Payload>, rows: map<Key, Row>) {
    && RowKey(job) in rows
    && rows[RowKey(job)].project == ProjectOf(job.payload)
    && rows[RowKey(job)].kind == job.payload.kind
    && rows[RowKey(job)].staged == job.payload.staged
  }

  ghost predicate JobsOk(jobs: seq<Job<Payload>>, rows: map<Key, Row>) {
    && QueueOk(jobs)
    && (forall j :: 0 <= j < |jobs| && IsDeployment(jobs[j]) ==> RowMatches(jobs[j], rows))
    && (forall i, j :: 0 <= i < j < |jobs| && IsDeployment(jobs[i]) && IsDeployment(jobs[j]) ==>
          RowKey(jobs[i]) != RowKey(jobs[j]))
  }

  /** The worker's position names a real job, running while the worker owes it a queue call. */
  predicate PcOk(pc: Pc, jobs: seq<Job<Payload>>) {
    match pc
    case Idle => true
    case Holding(j, stage) =>
      j < |jobs| && jobs[j].state == JobRunning && (IsDeployment(jobs[j]) || stage.Started? || stage.Settling?)
    case Mirroring(j, mirror) =>
      j < |jobs| && jobs[j].state != JobRunning && (IsDeployment(jobs[j]) || mirror.Applying?)
    case Sweeping(visit, _, _) => visit.Writing? ==> visit.decision.Settle?
  }

  /** The rows a sweep has still to visit. */
  function Unvisited(pc: Pc): seq<Stranded> {
    if !pc.Sweeping? then []
    else if pc.visit.Asking? || pc.visit.Writing? then [pc.visit.row] + pc.rest
    else pc.rest
  }

  /** A listed row is still as it was listed: nothing else writes it while the sweep runs. */
  ghost predicate Listed(rows: map<Key, Row>, list: seq<Stranded>) {
    && (forall i :: 0 <= i < |list| ==>
          list[i].key in rows && rows[list[i].key] == list[i].row && InFlight(list[i].row.status))
    && (forall i, j :: 0 <= i < j < |list| ==> list[i].key != list[j].key)
  }

  /** The row a sweep has just settled as succeeded. */
  predicate JustSettled(rows: map<Key, Row>, row: Stranded) {
    && row.key in rows
    && rows[row.key].status == Succeeded
    && rows[row.key].project == row.row.project
    && rows[row.key].kind == row.row.kind
    && rows[row.key].staged == row.row.staged
  }

  ghost predicate SweepOk(pc: Pc, rows: map<Key, Row>) {
    pc.Sweeping? ==>
      && Listed(rows, Unvisited(pc))
      && (pc.visit.PromotingRow? || pc.visit.MeteringRow? ==>
            JustSettled(rows, pc.visit.row) && forall i :: 0 <= i < |pc.rest| ==> pc.rest[i].key != pc.visit.row.key)
      && (pc.visit.PromotingRow? ==> pc.visit.row.row.kind == Production && !pc.visit.row.row.staged)
  }

  /** The applier promotes only a production deployment that was not staged, once its row says succeeded. */
  predicate PromotionOk(pc: Pc, jobs: seq<Job<Payload>>, rows: map<Key, Row>) {
    pc.Mirroring? && pc.job < |jobs| && !pc.mirror.Applying? ==>
      && RowKey(jobs[pc.job]) in rows && rows[RowKey(jobs[pc.job])].status == Succeeded
      && (pc.mirror.Promoting? ==> jobs[pc.job].payload.kind == Production && !jobs[pc.job].payload.staged)
  }

  ghost predicate Base(w: World) {
    JobsOk(w.jobs, w.rows) && PcOk(w.pc, w.jobs) && SweepOk(w.pc, w.rows) && PromotionOk(w.pc, w.jobs, w.rows)
  }

  lemma InitialBase(w: World)
    requires Initial(w)
    ensures Base(w)
  {
  }

  // ---------------------------------------------------------------- steps that change the jobs

  /** The update of a job that keeps who it is and what the queue promises about it. */
  predicate SameJob(a: Job<Payload>, b: Job<Payload>) {
    && a.id == b.id && a.organization == b.organization && a.kind == b.kind && a.key == b.key && a.payload == b.payload
    && a.maxAttempts == b.maxAttempts && a.createdAt == b.createdAt
  }

  lemma SetKeeps(jobs: seq<Job<Payload>>, rows: map<Key, Row>, j: nat, job: Job<Payload>)
    requires JobsOk(jobs, rows) && j < |jobs| && JobOk(job) && SameJob(jobs[j], job)
    ensures JobsOk(jobs[j := job], rows)
  {
    var after := jobs[j := job];
    assert forall i :: 0 <= i < |jobs| ==> SameJob(jobs[i], after[i]);
  }

  lemma SubmitKeeps(w: World, input: EnqueueInput<Payload>)
    requires JobsOk(w.jobs, w.rows) && Submittable(w, input)
    ensures JobsOk(Enqueued(w.jobs, input, w.now), w.rows)
  {
    var after := Enqueued(w.jobs, input, w.now);
    EnqueueKeeps(w.jobs, input, w.now);
    if FindKey(w.jobs, InputKey(input)).None? {
      var job := NewJob(|w.jobs| + 1, input, w.now);
      assert after == w.jobs + [job];
      forall i | 0 <= i < |w.jobs| && IsDeployment(w.jobs[i]) && IsDeployment(job)
        ensures RowKey(w.jobs[i]) != RowKey(job)
      {
        assert JobKey(w.jobs[i]) != InputKey(input);
      }
    }
  }

  lemma ReapJobsOk(jobs: seq<Job<Payload>>, rows: map<Key, Row>, now: nat)
    requires JobsOk(jobs, rows)
    ensures JobsOk(ReapAll(jobs, now), rows)
  {
    ReapKeeps(jobs, now);
    var after := ReapAll(jobs, now);
    assert forall i :: 0 <= i < |jobs| ==> SameJob(jobs[i], after[i]);
  }

  lemma EnvBase(w: World, e: EnvEvent)
    requires Base(w) && EnvEnabled(w, e)
    ensures Base(NextEnv(w, e))
  {
    match e
    case Advance(_) =>
    case CreateRow(key, row) => RowKeeps(w.jobs, w.rows, key, row);
    case Submit(input) => SubmitKeeps(w, input);
    case Reap => ReapJobsOk(w.jobs, w.rows, w.now);
    case Claim =>
      var j := FirstClaimable(w.jobs, w.now).value;
      SetKeeps(w.jobs, w.rows, j, TakeJob(w.jobs[j], w.now, w.cfg.leaseMs));
    case Crash =>
  }

  // ---------------------------------------------------------------- steps that change a row

  /** Writing a row's outcome never changes what the row was requested as. */
  predicate SameRequest(a: Row, b: Row) {
    a.project == b.project && a.kind == b.kind && a.staged == b.staged && a.createdAt == b.createdAt
  }

  lemma RowKeeps(jobs: seq<Job<Payload>>, rows: map<Key, Row>, key: Key, row: Row)
    requires JobsOk(jobs, rows)
    requires key in rows ==> SameRequest(rows[key], row)
    ensures JobsOk(jobs, rows[key := row])
  {
    forall j | 0 <= j < |jobs| && IsDeployment(jobs[j]) ensures RowMatches(jobs[j], rows[key := row]) {
      assert RowMatches(jobs[j], rows);
    }
  }

  /** A write to one row by a worker that is not sweeping. */
  lemma JobRowKeeps(w: World, j: nat, row: Row)
    requires Base(w) && j < |w.jobs| && IsDeployment(w.jobs[j])
    requires SameRequest(w.rows[RowKey(w.jobs[j])], row)
    ensures JobsOk(w.jobs, w.rows[RowKey(w.jobs[j]) := row])
  {
    RowKeeps(w.jobs, w.rows, RowKey(w.jobs[j]), row);
  }

  lemma PrepareBase(w: World, e: PrepareEvent)
    requires Base(w) && PrepareEnabled(w, e)
    ensures Base(NextPrepare(w, e))
  {
    if e.MarkBuild? {
      assert RowMatches(w.jobs[w.pc.job], w.rows);
      JobRowKeeps(w, w.pc.job, MarkRowBuild(w.rows[RowKey(w.jobs[w.pc.job])], w.pc.stage.build));
    }
  }

  lemma MarkHandleBase(w: World)
    requires Base(w) && AtStage(w) && w.pc.stage.Marking?
    ensures Base(OnMarkHandle(w))
  {
    var at := w.pc.stage;
    assert RowMatches(w.jobs[w.pc.job], w.rows);
    JobRowKeeps(w, w.pc.job, MarkRow(w.rows[RowKey(w.jobs[w.pc.job])], at.accepted, Some(at.resolved),
                                     HandleOf(at.ref)));
  }

  lemma ActBase(w: World, e: ActEvent)
    requires Base(w) && ActEnabled(w, e)
    ensures Base(NextAct(w, e))
  {
    if e.MarkHandle? {
      MarkHandleBase(w);
    }
  }

  lemma WriteQueueBase(w: World)
    requires Base(w) && AtStage(w) && w.pc.stage.Settling?
    ensures Base(OnWriteQueue(w))
  {
    SetKeeps(w.jobs, w.rows, w.pc.job, QueueCall(w.jobs[w.pc.job], w.pc.stage.write, w.now, w.cfg.pollBackoffMs));
  }

  lemma WriteRowBase(w: World)
    requires Base(w) && AtMirror(w) && w.pc.mirror.Applying?
    ensures Base(OnWriteRow(w))
  {
    var job := w.jobs[w.pc.job];
    if IsDeployment(job) {
      assert RowMatches(job, w.rows);
      JobRowKeeps(w, w.pc.job, ApplyToRow(w.rows[RowKey(job)], w.pc.mirror.result, w.now));
    }
  }

  lemma SettleBase(w: World, e: SettleEvent)
    requires Base(w) && SettleEnabled(w, e)
    ensures Base(NextSettle(w, e))
  {
    match e
    case WriteQueue => WriteQueueBase(w);
    case WriteRow => WriteRowBase(w);
    case _ =>
  }

  /** Settling the first listed row leaves the rest of the listing accurate. */
  lemma SettlingKeepsListed(rows: map<Key, Row>, first: Stranded, rest: seq<Stranded>, row: Row)
    requires Listed(rows, [first] + rest)
    ensures Listed(rows[first.key := row], rest)
    ensures forall i :: 0 <= i < |rest| ==> rest[i].key != first.key
  {
    var list := [first] + rest;
    assert list[0] == first && forall i :: 0 <= i < |rest| ==> list[i + 1] == rest[i];
  }

  lemma SweepWriteBase(w: World)
    requires Base(w) && w.pc.Sweeping? && w.pc.visit.Writing? && w.pc.visit.decision.Settle?
    ensures Base(OnSweepWrite(w))
  {
    var row, rest, d := w.pc.visit.row, w.pc.rest, w.pc.visit.decision;
    assert ([row] + rest)[0] == row;
    var written := SettleRow(w.rows[row.key], d.status, d.url, d.reason, row.row.app, row.row.handle, None, w.pc.at);
    RowKeeps(w.jobs, w.rows, row.key, written);
    SettlingKeepsListed(w.rows, row, rest, written);
    assert OnSweepWrite(w).rows == w.rows[row.key := written];
  }

  lemma TailListed(rows: map<Key, Row>, list: seq<Stranded>)
    requires Listed(rows, list) && |list| > 0
    ensures Listed(rows, list[1..]) && Listed(rows, [list[0]] + list[1..])
  {
    assert [list[0]] + list[1..] == list;
  }

  lemma SweepMoveBase(w: World, e: SweepEvent)
    requires Base(w) && SweepEnabled(w, e) && (e.SweepSkip? || e.SweepReach?)
    ensures Base(NextSweep(w, e))
  {
    TailListed(w.rows, w.pc.rest);
  }

  lemma SweepAnswerBase(w: World, asked: ProviderRef, answer: AdapterResult<DeploymentState>)
    requires Base(w) && w.pc.Sweeping? && w.pc.visit.Asking?
    ensures Base(OnSweepAnswer(w, asked, answer))
  {
    TailListed(w.rows, [w.pc.visit.row] + w.pc.rest);
    assert ([w.pc.visit.row] + w.pc.rest)[1..] == w.pc.rest;
  }

  lemma SweepBase(w: World, e: SweepEvent)
    requires Base(w) && SweepEnabled(w, e)
    ensures Base(NextSweep(w, e))
  {
    match e
    case SweepAnswer(asked, answer) => SweepAnswerBase(w, asked, answer);
    case SweepWrite => SweepWriteBase(w);
    case SweepSkip => SweepMoveBase(w, e);
    case SweepReach => SweepMoveBase(w, e);
    case _ =>
  }

  lemma StepBase(w: World, e: Event)
    requires Base(w) && Enabled(w, e)
    ensures Base(Next(w, e))
  {
    match e
    case Env(env) => EnvBase(w, env);
    case Prepare(prepare) => PrepareBase(w, prepare);
    case Act(act) => ActBase(w, act);
    case Settled(settle) => SettleBase(w, settle);
    case Swept(sweep) => SweepBase(w, sweep);
  }
}
