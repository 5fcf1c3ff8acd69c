/**
 One unit of usage per deployment, and a pointer that stays on a success.

 Both the applier and the sweep write the row before the pointer and the usage, so
 a deployment that has been counted has a finished job and a settled row, and
 neither is visited again. The one way round is a sweep that settles a row whose
 job is still going; each such settlement can cost one more unit.
 */
module ProtocolUsage {
  import opened Contracts
  import opened Queue
  import opened Deployments
  import opened Protocol
  import opened ProtocolFrames
  import opened ProtocolBase
  import opened ProtocolSuccess

  /** The job is being mirrored onto this row. */
  predicate MirrorsRow(pc: Pc, jobs: seq<Job<Payload>>, key: Key) {
    pc.Mirroring? && pc.job < |jobs| && IsDeployment(jobs[pc.job]) && RowKey(jobs[pc.job]) == key
  }

  /** The sweep is about to promote or count this row. */
  predicate SweepCounts(pc: Pc, key: Key) {
    pc.Sweeping? && (pc.visit.PromotingRow? || pc.visit.MeteringRow?) && pc.visit.row.key == key
  }

  /** A finished job and a settled row: the deployment will not be visited again. */
  ghost predicate Closed(w: World, key: Key) {
    JobFinished(w, key) && key in w.rows && !InFlight(w.rows[key].status)
  }

  ghost predicate RowCounted(w: World, key: Key) {
    var usage, early := w.usage[key], w.ledger.early[key];
    if MirrorsRow(w.pc, w.jobs, key) then usage <= early
    else if SweepCounts(w.pc, key) then usage + 1 <= early + (if JobFinished(w, key) then 1 else 0)
    else usage <= early + (if Closed(w, key) then 1 else 0)
  }

  /** A live deployment that was never settled early is still a succeeded one, and its job is done. */
  ghost predicate LiveHolds(w: World, key: Key) {
    w.ledger.early[key] == 0 ==>
      Closed(w, key) && w.rows[key].status == Succeeded && !(MirrorsRow(w.pc, w.jobs, key) && w.pc.mirror.Applying?)
  }

  /** A row the sweep is about to promote, if it was not settled early, has a finished job. */
  ghost predicate SweepClosed(w: World) {
    w.pc.Sweeping? && (w.pc.visit.PromotingRow? || w.pc.visit.MeteringRow?) && w.ledger.early[w.pc.visit.row.key] == 0
    ==> JobFinished(w, w.pc.visit.row.key)
  }

  ghost predicate AllCounted(w: World) {
    && (forall k :: RowCounted(w, k))
    && (forall p :: p in w.live ==> LiveHolds(w, w.live[p]))
    && SweepClosed(w)
  }

  /** For a deployment with a job, "its job has finished" is about that one job. */
  lemma FinishedIsOwn(w: World, j: nat)
    requires JobsOk(w.jobs, w.rows) && j < |w.jobs| && IsDeployment(w.jobs[j])
    ensures JobFinished(w, RowKey(w.jobs[j])) <==> TerminalJob(w.jobs[j].state)
  {
  }

  // ---------------------------------------------------------------- steps that settle nothing

  /** Rows and jobs are as they were, except where the row's job is still going. */
  ghost predicate SameCount(w: World, w': World, key: Key) {
    && w'.usage[key] == w.usage[key] && w'.ledger.early[key] == w.ledger.early[key]
    && (JobFinished(w', key) <==> JobFinished(w, key))
    && (JobFinished(w, key) ==> (key in w'.rows <==> key in w.rows) && (key in w.rows ==> w'.rows[key] == w.rows[key]))
    && (MirrorsRow(w'.pc, w'.jobs, key) ==> MirrorsRow(w.pc, w.jobs, key) && w'.pc == w.pc)
    && (SweepCounts(w'.pc, key) ==> SweepCounts(w.pc, key))
  }

  /** Leaving a mirror or a count undone only leaves fewer units used. */
  lemma KeptCounted(w: World, w': World)
    requires AllCounted(w) && w'.live == w.live && w'.ledger.early == w.ledger.early
    requires forall k :: SameCount(w, w', k)
    ensures AllCounted(w')
  {
    forall k ensures RowCounted(w', k) {
      assert RowCounted(w, k) && SameCount(w, w', k);
    }
    forall p | p in w'.live ensures LiveHolds(w', w'.live[p]) {
      assert LiveHolds(w, w.live[p]) && SameCount(w, w', w.live[p]);
    }
    if w'.pc.Sweeping? && (w'.pc.visit.PromotingRow? || w'.pc.visit.MeteringRow?) {
      assert SameCount(w, w', w'.pc.visit.row.key);
    }
  }

  lemma SubmitCounted(w: World, input: EnqueueInput<Payload>)
    requires Base(w) && AllCounted(w) && Submittable(w, input)
    ensures AllCounted(NextEnv(w, Submit(input)))
  {
    var w' := NextEnv(w, Submit(input));
    forall k ensures SameCount(w, w', k) {
      assert forall j :: 0 <= j < |w.jobs| ==> w'.jobs[j] == w.jobs[j];
    }
    KeptCounted(w, w');
  }

  /** A reap can finish a job whose row was settled before it, which only allows more. */
  lemma ReapCounted(w: World)
    requires Base(w) && AllCounted(w) && w.pc.Idle?
    ensures AllCounted(OnReap(w))
  {
    var w' := OnReap(w);
    forall k ensures RowCounted(w', k) && (JobFinished(w, k) ==> JobFinished(w', k)) {
      assert RowCounted(w, k);
      if JobFinished(w, k) {
        var j :| 0 <= j < |w.jobs| && IsDeployment(w.jobs[j]) && RowKey(w.jobs[j]) == k && TerminalJob(w.jobs[j].state);
        assert w'.jobs[j] == w.jobs[j];
      }
    }
    forall p | p in w'.live ensures LiveHolds(w', w'.live[p]) {
      assert LiveHolds(w, w.live[p]);
    }
  }

  lemma ClaimCounted(w: World)
    requires Base(w) && AllCounted(w) && EnvEnabled(w, Claim)
    ensures AllCounted(OnClaim(w))
  {
    var w' := OnClaim(w);
    var i := FirstClaimable(w.jobs, w.now).value;
    forall k ensures SameCount(w, w', k) {
      assert forall j :: 0 <= j < |w.jobs| && j != i ==> w'.jobs[j] == w.jobs[j];
      assert w'.jobs[i].payload == w.jobs[i].payload && w'.jobs[i].kind == w.jobs[i].kind;
      assert !TerminalJob(w'.jobs[i].state) && !TerminalJob(w.jobs[i].state);
    }
    KeptCounted(w, w');
  }

  /** Time has passed, or the worker has let go of what it was doing. */
  lemma LeftCounted(w: World, w': World)
    requires AllCounted(w) && w'.jobs == w.jobs && w'.rows == w.rows && w'.live == w.live && w'.usage == w.usage
    requires w'.ledger.early == w.ledger.early && (w'.pc == w.pc || w'.pc.Idle?)
    ensures AllCounted(w')
  {
    assert forall k :: JobFinished(w', k) <==> JobFinished(w, k);
    KeptCounted(w, w');
  }

  lemma EnvCounted(w: World, e: EnvEvent)
    requires Base(w) && AllCounted(w) && EnvEnabled(w, e)
    ensures AllCounted(NextEnv(w, e))
  {
    match e
    case Submit(input) => SubmitCounted(w, input);
    case Reap => ReapCounted(w);
    case Claim => ClaimCounted(w);
    case CreateRow(key, row) =>
      forall k ensures SameCount(w, NextEnv(w, e), k) {
        if JobFinished(w, k) {
          var j :| 0 <= j < |w.jobs| && IsDeployment(w.jobs[j]) && RowKey(w.jobs[j]) == k
            && TerminalJob(w.jobs[j].state);
          assert RowMatches(w.jobs[j], w.rows);
        }
      }
      KeptCounted(w, NextEnv(w, e));
    case Crash =>
      LetGoFrame(w);
      LeftCounted(w, LetGo(w));
    case Advance(_) => LeftCounted(w, NextEnv(w, e));
  }

  /** The handler writes only a row whose job is running. */
  lemma HandlerCounted(w: World, w': World)
    requires Base(w) && AllCounted(w) && w.pc.Holding? && (w'.pc.Holding? || w'.pc.Idle?)
    requires SameOutside(w, w') && w'.ledger.early == w.ledger.early
    requires w'.rows == w.rows
          || (IsDeployment(w.jobs[w.pc.job]) && OtherRowsSame(w.rows, w'.rows, RowKey(w.jobs[w.pc.job])))
    ensures AllCounted(w')
  {
    forall k ensures SameCount(w, w', k) {
      assert JobFinished(w', k) <==> JobFinished(w, k);
      if IsDeployment(w.jobs[w.pc.job]) {
        FinishedIsOwn(w, w.pc.job);
      }
    }
    KeptCounted(w, w');
  }

  lemma PrepareCounted(w: World, e: PrepareEvent)
    requires Base(w) && AllCounted(w) && PrepareEnabled(w, e)
    ensures AllCounted(NextPrepare(w, e))
  {
    if e.MarkBuild? {
      assert RowMatches(w.jobs[w.pc.job], w.rows);
      MarkBuildFrame(w);
    } else {
      PrepareFrame(w, e);
    }
    HandlerCounted(w, NextPrepare(w, e));
  }

  lemma ActCounted(w: World, e: ActEvent)
    requires Base(w) && AllCounted(w) && ActEnabled(w, e)
    ensures AllCounted(NextAct(w, e))
  {
    if e.MarkHandle? {
      assert RowMatches(w.jobs[w.pc.job], w.rows);
      MarkHandleFrame(w);
    } else {
      ActFrame(w, e);
    }
    HandlerCounted(w, NextAct(w, e));
  }

  // ---------------------------------------------------------------- steps that settle a job

  lemma WriteQueueCounted(w: World)
    requires Base(w) && AllCounted(w) && AtStage(w) && w.pc.stage.Settling?
    ensures AllCounted(OnWriteQueue(w))
  {
    var w' := OnWriteQueue(w);
    var i := w.pc.job;
    if IsDeployment(w.jobs[i]) { FinishedIsOwn(w, i); }
    forall k
      ensures RowCounted(w', k)
      ensures RowKey(w.jobs[i]) != k || !IsDeployment(w.jobs[i]) ==> (JobFinished(w', k) <==> JobFinished(w, k))
    {
      assert RowCounted(w, k);
      assert forall j :: 0 <= j < |w.jobs| && j != i ==> w'.jobs[j] == w.jobs[j];
      assert w'.jobs[i].payload == w.jobs[i].payload && w'.jobs[i].kind == w.jobs[i].kind;
    }
    forall p | p in w'.live ensures LiveHolds(w', w'.live[p]) {
      assert LiveHolds(w, w.live[p]);
    }
  }

  lemma WriteRowCounted(w: World, w': World)
    requires Base(w) && AllCounted(w) && AtMirror(w) && w.pc.mirror.Applying? && RowStep(w, w')
    requires var job, result := w.jobs[w.pc.job], w.pc.mirror.result;
             if !IsDeployment(job) then w'.rows == w.rows && w'.pc.Idle?
             else
               && RowMatches(job, w.rows)
               && w'.rows == w.rows[RowKey(job) := ApplyToRow(w.rows[RowKey(job)], result, w.now)]
               && w'.pc == AfterRow(w.pc.job, job.payload, result)
    ensures AllCounted(w')
  {
    var job := w.jobs[w.pc.job];
    forall k ensures RowCounted(w', k) {
      assert RowCounted(w, k);
      assert JobFinished(w', k) <==> JobFinished(w, k);
    }
    forall p | p in w'.live ensures LiveHolds(w', w'.live[p]) {
      assert LiveHolds(w, w.live[p]);
      assert JobFinished(w', w.live[p]) <==> JobFinished(w, w.live[p]);
    }
  }

  lemma PromoteCounted(w: World)
    requires Base(w) && Honest(w) && AllCounted(w) && SettleEnabled(w, Promote)
    ensures AllCounted(NextSettle(w, Promote))
  {
    var w' := NextSettle(w, Promote);
    FinishedIsOwn(w, w.pc.job);
    forall k ensures RowCounted(w', k) {
      assert RowCounted(w, k);
      assert JobFinished(w', k) <==> JobFinished(w, k);
    }
    forall p | p in w'.live ensures LiveHolds(w', w'.live[p]) {
      assert JobFinished(w', w'.live[p]) <==> JobFinished(w, w'.live[p]);
      if p != ProjectOf(w.jobs[w.pc.job].payload) { assert LiveHolds(w, w.live[p]); }
    }
  }

  lemma MeterCounted(w: World)
    requires Base(w) && Honest(w) && AllCounted(w) && SettleEnabled(w, Meter)
    ensures AllCounted(NextSettle(w, Meter))
  {
    var w' := NextSettle(w, Meter);
    FinishedIsOwn(w, w.pc.job);
    forall k ensures RowCounted(w', k) {
      assert RowCounted(w, k);
      assert JobFinished(w', k) <==> JobFinished(w, k);
    }
    forall p | p in w'.live ensures LiveHolds(w', w'.live[p]) {
      assert LiveHolds(w, w.live[p]);
      assert JobFinished(w', w.live[p]) <==> JobFinished(w, w.live[p]);
    }
  }

  lemma SettleCounted(w: World, e: SettleEvent)
    requires Base(w) && Honest(w) && AllCounted(w) && SettleEnabled(w, e)
    ensures AllCounted(NextSettle(w, e))
  {
    match e
    case Decide => HandlerCounted(w, OnDecide(w));
    case WriteQueue => WriteQueueCounted(w);
    case WriteRow =>
      if IsDeployment(w.jobs[w.pc.job]) { assert RowMatches(w.jobs[w.pc.job], w.rows); }
      WriteRowFrame(w);
      WriteRowCounted(w, OnWriteRow(w));
    case Promote => PromoteCounted(w);
    case Meter => MeterCounted(w);
  }

  // ---------------------------------------------------------------- steps that settle a row

  lemma SweepWriteCounted(w: World)
    requires Base(w) && AllCounted(w) && w.pc.Sweeping? && w.pc.visit.Writing? && w.pc.visit.decision.Settle?
    ensures AllCounted(OnSweepWrite(w))
  {
    var w' := OnSweepWrite(w);
    var key := w.pc.visit.row.key;
    assert ([w.pc.visit.row] + w.pc.rest)[0] == w.pc.visit.row;
    forall k ensures RowCounted(w', k) && (JobFinished(w', k) <==> JobFinished(w, k)) {
      assert RowCounted(w, k);
    }
    forall p | p in w'.live ensures LiveHolds(w', w'.live[p]) {
      assert LiveHolds(w, w.live[p]);
    }
  }

  lemma SweepPromoteCounted(w: World)
    requires Base(w) && AllCounted(w) && SweepEnabled(w, SweepPromote)
    ensures AllCounted(NextSweep(w, SweepPromote))
  {
    var w' := NextSweep(w, SweepPromote);
    forall k ensures RowCounted(w', k) && (JobFinished(w', k) <==> JobFinished(w, k)) {
      assert RowCounted(w, k);
    }
    forall p | p in w'.live ensures LiveHolds(w', w'.live[p]) {
      if p != w.pc.visit.row.row.project { assert LiveHolds(w, w.live[p]); }
    }
  }

  lemma SweepMeterCounted(w: World)
    requires Base(w) && AllCounted(w) && SweepEnabled(w, SweepMeter)
    ensures AllCounted(NextSweep(w, SweepMeter))
  {
    var w' := NextSweep(w, SweepMeter);
    forall k ensures RowCounted(w', k) && (JobFinished(w', k) <==> JobFinished(w, k)) {
      assert RowCounted(w, k);
    }
    forall p | p in w'.live ensures LiveHolds(w', w'.live[p]) {
      assert LiveHolds(w, w.live[p]);
    }
  }

  lemma SweepMoveCounted(w: World, e: SweepEvent)
    requires AllCounted(w) && SweepEnabled(w, e) && !e.SweepWrite? && !e.SweepPromote? && !e.SweepMeter?
    ensures AllCounted(NextSweep(w, e))
  {
    var w' := NextSweep(w, e);
    assert w'.jobs == w.jobs && w'.rows == w.rows && w'.usage == w.usage && w'.ledger.early == w.ledger.early;
    forall k ensures SameCount(w, w', k) {
      assert JobFinished(w', k) <==> JobFinished(w, k);
    }
    KeptCounted(w, w');
  }

  lemma SweepCounted(w: World, e: SweepEvent)
    requires Base(w) && AllCounted(w) && SweepEnabled(w, e)
    ensures AllCounted(NextSweep(w, e))
  {
    match e
    case SweepWrite => SweepWriteCounted(w);
    case SweepPromote => SweepPromoteCounted(w);
    case SweepMeter => SweepMeterCounted(w);
    case _ => SweepMoveCounted(w, e);
  }

  lemma StepCounted(w: World, e: Event)
    requires Base(w) && Honest(w) && AllCounted(w) && Enabled(w, e)
    ensures AllCounted(Next(w, e))
  {
    match e
    case Env(env) => EnvCounted(w, env);
    case Prepare(prepare) => PrepareCounted(w, prepare);
    case Act(act) => ActCounted(w, act);
    case Settled(settle) => SettleCounted(w, settle);
    case Swept(sweep) => SweepCounted(w, sweep);
  }

  lemma CountedBound(w: World, key: Key)
    requires AllCounted(w)
    ensures w.usage[key] <= 1 + w.ledger.early[key]
  {
    assert RowCounted(w, key);
  }
}
