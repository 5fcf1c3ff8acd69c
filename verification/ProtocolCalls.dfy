/**
 How many deploy and rollback calls a job can cost.

 A call is paid for by the attempt its claim spent. Three things can take that
 payment back: a deferral returns the attempt, and is only free when the row then
 holds a build to poll; the sweep can settle such a row under a job that is still
 going; and an engine can accept work without a handle to poll it by.
 */
module ProtocolCalls {
  import opened Contracts
  import opened Queue
  import opened Deployments
  import opened Protocol
  import opened ProtocolFrames
  import opened ProtocolBase

  /** What job `j` has paid, counting the two ways the payment can be undone. */
  function Paid(w: World, j: nat): nat
    requires j < |w.jobs|
  {
    w.jobs[j].attempts + w.ledger.early[RowKey(w.jobs[j])] + w.ledger.unaddressed[j]
  }

  /** The payment covers the calls made, and at each stage the call still to come. */
  predicate StageCovers(stage: Stage, pollable: bool, calls: nat, paid: nat) {
    match stage
    case Started => calls + 1 <= paid + (if pollable then 1 else 0)
    case Polling(_, _) => calls <= paid && pollable
    case Marking(_, _, _, _) => calls <= paid
    case Reading(_, _, _, _) => calls <= paid
    case Returned(called, _) => calls + 1 <= paid || (calls <= paid && (called || pollable))
    case Settling(called, write, result, _) =>
      && (calls + 1 <= paid || (calls <= paid && (called || pollable)))
      && (write.DeferWrite? ==> InFlight(AppliedStatus(result)))
    case _ => calls + 1 <= paid
  }

  /** A waiting job whose row can be polled has one call in hand: its next claim will not need one. */
  predicate RestCovers(state: JobState, pollable: bool, calls: nat, paid: nat) {
    calls <= paid + (if state == JobQueued && pollable then 1 else 0)
  }

  /** While the row is being mirrored, a build still owed counts as one in hand. */
  predicate MirrorCovers(mirror: Mirror, state: JobState, pollable: bool, calls: nat, paid: nat)
    requires mirror.Applying?
  {
    if mirror.owes then state == JobQueued && InFlight(AppliedStatus(mirror.result)) && calls <= paid + 1
    else RestCovers(state, pollable && InFlight(AppliedStatus(mirror.result)), calls, paid)
  }

  predicate JobCovered(w: World, j: nat)
    requires j < |w.jobs|
  {
    var pollable, calls, paid := Pollable(w.rows, RowKey(w.jobs[j])), w.ledger.calls[j], Paid(w, j);
    if w.pc.Holding? && w.pc.job == j then StageCovers(w.pc.stage, pollable, calls, paid)
    else if w.pc.Mirroring? && w.pc.job == j && w.pc.mirror.Applying?
    then MirrorCovers(w.pc.mirror, w.jobs[j].state, pollable, calls, paid)
    else RestCovers(w.jobs[j].state, pollable, calls, paid)
  }

  ghost predicate Covered(w: World) {
    && (forall j :: j in w.ledger.calls ==> j < |w.jobs|)
    && (forall j :: 0 <= j < |w.jobs| && IsDeployment(w.jobs[j]) ==> JobCovered(w, j))
  }

  /** Nothing a job's coverage depends on has changed. */
  predicate SameCover(w: World, w': World, j: nat)
    requires j < |w.jobs|
  {
    && j < |w'.jobs| && w'.jobs[j] == w.jobs[j]
    && Pollable(w'.rows, RowKey(w.jobs[j])) == Pollable(w.rows, RowKey(w.jobs[j]))
    && w'.ledger.calls[j] == w.ledger.calls[j]
    && w'.ledger.early[RowKey(w.jobs[j])] == w.ledger.early[RowKey(w.jobs[j])]
    && w'.ledger.unaddressed[j] == w.ledger.unaddressed[j]
  }

  /** A stage's cover always leaves the job covered should the worker die there. */
  lemma StageRests(stage: Stage, pollable: bool, calls: nat, paid: nat)
    requires StageCovers(stage, pollable, calls, paid)
    ensures calls <= paid
  {
  }

  // ---------------------------------------------------------------- outside steps

  lemma ClaimCovers(w: World)
    requires Base(w) && Covered(w) && EnvEnabled(w, Claim)
    ensures Covered(OnClaim(w))
  {
    var w' := OnClaim(w);
    var j := FirstClaimable(w.jobs, w.now).value;
    forall i | 0 <= i < |w'.jobs| && IsDeployment(w'.jobs[i]) ensures JobCovered(w', i) {
      assert IsDeployment(w.jobs[i]) && JobCovered(w, i);
      if i != j { assert SameCover(w, w', i); }
    }
  }

  lemma ReapCovers(w: World)
    requires Base(w) && Covered(w) && w.pc.Idle?
    ensures Covered(OnReap(w))
  {
    var w' := OnReap(w);
    forall i | 0 <= i < |w'.jobs| && IsDeployment(w'.jobs[i]) ensures JobCovered(w', i) {
      assert w'.jobs[i] == ReapJob(w.jobs[i], w.now);
      assert IsDeployment(w.jobs[i]) && JobCovered(w, i);
    }
  }

  lemma CrashCovers(w: World)
    requires Base(w) && Covered(w)
    ensures Covered(LetGo(w))
  {
    var w' := LetGo(w);
    forall i | 0 <= i < |w'.jobs| && IsDeployment(w'.jobs[i]) ensures JobCovered(w', i) {
      assert JobCovered(w, i);
    }
  }

  lemma SubmitCovers(w: World, input: EnqueueInput<Payload>)
    requires Base(w) && Covered(w) && Submittable(w, input)
    ensures Covered(NextEnv(w, Submit(input)))
  {
    var w' := NextEnv(w, Submit(input));
    forall i | 0 <= i < |w'.jobs| && IsDeployment(w'.jobs[i]) ensures JobCovered(w', i) {
      if i < |w.jobs| {
        assert SameCover(w, w', i) && JobCovered(w, i);
      }
    }
  }

  lemma CreateRowCovers(w: World, key: Key, row: Row)
    requires Base(w) && Covered(w) && EnvEnabled(w, CreateRow(key, row))
    ensures Covered(NextEnv(w, CreateRow(key, row)))
  {
    var w' := NextEnv(w, CreateRow(key, row));
    forall i | 0 <= i < |w'.jobs| && IsDeployment(w'.jobs[i]) ensures JobCovered(w', i) {
      assert RowMatches(w.jobs[i], w.rows);
      assert SameCover(w, w', i) && JobCovered(w, i);
    }
  }

  lemma EnvCovers(w: World, e: EnvEvent)
    requires Base(w) && Covered(w) && EnvEnabled(w, e)
    ensures Covered(NextEnv(w, e))
  {
    match e
    case Advance(ms) =>
      var w' := w.(now := w.now + ms);
      forall i | 0 <= i < |w'.jobs| && IsDeployment(w'.jobs[i]) ensures JobCovered(w', i) {
        assert SameCover(w, w', i) && JobCovered(w, i);
      }
    case CreateRow(key, row) => CreateRowCovers(w, key, row);
    case Submit(input) => SubmitCovers(w, input);
    case Reap => ReapCovers(w);
    case Claim => ClaimCovers(w);
    case Crash => CrashCovers(w);
  }

  // ---------------------------------------------------------------- the worker's steps

  /** A step that changes no job, row or count but those of job `j`. */
  predicate OnlyJob(w: World, w': World, j: nat) {
    && |w'.jobs| == |w.jobs|
    && (w'.pc.Idle? || (!w'.pc.Sweeping? && w'.pc.job == j))
    && (forall i :: i in w'.ledger.calls ==> i < |w.jobs|)
    && (forall i :: 0 <= i < |w.jobs| && i != j ==> SameCounts(w, w', i))
    && w'.ledger.early == w.ledger.early
  }

  predicate SameCounts(w: World, w': World, i: nat)
    requires i < |w.jobs| && i < |w'.jobs|
  {
    w'.jobs[i] == w.jobs[i] && w'.ledger.calls[i] == w.ledger.calls[i]
      && w'.ledger.unaddressed[i] == w.ledger.unaddressed[i]
  }

  /**
   A worker's step on its own job: every other job is as covered as it was. The
   caller shows that the one job still is.
   */
  lemma OwnStepCovers(w: World, w': World, j: nat)
    requires Base(w) && Covered(w) && j < |w.jobs|
    requires !w.pc.Idle? && !w.pc.Sweeping? && w.pc.job == j && OnlyJob(w, w', j)
    requires w'.rows == w.rows || (IsDeployment(w.jobs[j]) && OtherRowsSame(w.rows, w'.rows, RowKey(w.jobs[j])))
    requires IsDeployment(w'.jobs[j]) ==> JobCovered(w', j)
    ensures Covered(w')
  {
    forall i | 0 <= i < |w'.jobs| && IsDeployment(w'.jobs[i]) ensures JobCovered(w', i) {
      if i != j {
        assert SameCounts(w, w', i) && JobCovered(w, i) && RowMatches(w.jobs[i], w.rows);
        if w'.rows != w.rows {
          assert RowKey(w.jobs[i]) != RowKey(w.jobs[j]);
        }
        assert SameCover(w, w', i);
      }
    }
  }

  /** A step at job `j` that leaves its row alone and keeps its counts, apart from a call it may add. */
  predicate CallStep(w: World, w': World, j: nat) {
    && w'.jobs == w.jobs && w'.rows == w.rows && w'.ledger.early == w.ledger.early
    && w'.ledger.unaddressed == w.ledger.unaddressed
    && (w'.ledger.calls == w.ledger.calls || w'.ledger.calls == w.ledger.calls + multiset{j})
    && (w'.pc.Idle? || (w'.pc.Holding? && w'.pc.job == j))
  }

  lemma CallStepFrame(w: World, w': World, j: nat)
    requires CallStep(w, w', j) && j < |w.jobs| && forall i :: i in w.ledger.calls ==> i < |w.jobs|
    ensures OnlyJob(w, w', j)
  {
  }

  lemma PrepareStep(w: World, e: PrepareEvent)
    requires PrepareEnabled(w, e) && !e.MarkBuild?
    ensures CallStep(w, NextPrepare(w, e), w.pc.job)
  {
  }

  lemma MarkBuildOnlyJob(w: World)
    requires AtStage(w) && w.pc.stage.MarkingBuild? && forall j :: j in w.ledger.calls ==> j < |w.jobs|
    ensures OnlyJob(w, OnMarkBuild(w), w.pc.job) && OtherRowsSame(w.rows, OnMarkBuild(w).rows, RowKey(w.jobs[w.pc.job]))
  {
  }

  lemma PrepareJob(w: World, e: PrepareEvent)
    requires PrepareEnabled(w, e) && IsDeployment(w.jobs[w.pc.job]) && RowMatches(w.jobs[w.pc.job], w.rows)
    requires JobCovered(w, w.pc.job)
    ensures JobCovered(NextPrepare(w, e), w.pc.job)
  {
  }

  lemma PrepareCovers(w: World, e: PrepareEvent)
    requires Base(w) && Covered(w) && PrepareEnabled(w, e)
    ensures Covered(NextPrepare(w, e))
  {
    if IsDeployment(w.jobs[w.pc.job]) {
      assert RowMatches(w.jobs[w.pc.job], w.rows);
      PrepareJob(w, e);
    }
    if e.MarkBuild? {
      MarkBuildOnlyJob(w);
    } else {
      PrepareStep(w, e);
      CallStepFrame(w, NextPrepare(w, e), w.pc.job);
    }
    OwnStepCovers(w, NextPrepare(w, e), w.pc.job);
  }

  lemma ActionJob(w: World, answer: AdapterResult<ProviderRef>)
    requires AtAction(w) && JobCovered(w, w.pc.job)
    ensures JobCovered(OnActionAnswer(w, answer), w.pc.job) && CallStep(w, OnActionAnswer(w, answer), w.pc.job)
  {
  }

  lemma StateJob(w: World, answer: AdapterResult<DeploymentState>)
    requires AtStage(w) && (w.pc.stage.Polling? || w.pc.stage.Reading?) && JobCovered(w, w.pc.job)
    ensures JobCovered(OnStateAnswer(w, answer), w.pc.job) && CallStep(w, OnStateAnswer(w, answer), w.pc.job)
  {
  }

  lemma StopJob(w: World, e: ActEvent)
    requires ActEnabled(w, e) && JobCovered(w, w.pc.job)
    requires e.ActionThrew? || e.ActionLost? || e.Throw?
    ensures JobCovered(NextAct(w, e), w.pc.job) && CallStep(w, NextAct(w, e), w.pc.job)
  {
  }

  lemma MarkHandleCovers(w: World)
    requires Base(w) && Covered(w) && AtStage(w) && w.pc.stage.Marking?
    ensures Covered(OnMarkHandle(w))
  {
    var j := w.pc.job;
    assert JobCovered(w, j) && RowMatches(w.jobs[j], w.rows);
    OwnStepCovers(w, OnMarkHandle(w), j);
  }

  lemma ActionCovers(w: World, answer: AdapterResult<ProviderRef>)
    requires Base(w) && Covered(w) && AtAction(w)
    ensures Covered(OnActionAnswer(w, answer))
  {
    ActionJob(w, answer);
    CallStepFrame(w, OnActionAnswer(w, answer), w.pc.job);
    OwnStepCovers(w, OnActionAnswer(w, answer), w.pc.job);
  }

  lemma StateCovers(w: World, answer: AdapterResult<DeploymentState>)
    requires Base(w) && Covered(w) && AtStage(w) && (w.pc.stage.Polling? || w.pc.stage.Reading?)
    ensures Covered(OnStateAnswer(w, answer))
  {
    StateJob(w, answer);
    CallStepFrame(w, OnStateAnswer(w, answer), w.pc.job);
    OwnStepCovers(w, OnStateAnswer(w, answer), w.pc.job);
  }

  lemma StopCovers(w: World, e: ActEvent)
    requires Base(w) && Covered(w) && ActEnabled(w, e) && (e.ActionThrew? || e.ActionLost? || e.Throw?)
    ensures Covered(NextAct(w, e))
  {
    if IsDeployment(w.jobs[w.pc.job]) {
      StopJob(w, e);
    }
    assert CallStep(w, NextAct(w, e), w.pc.job);
    CallStepFrame(w, NextAct(w, e), w.pc.job);
    OwnStepCovers(w, NextAct(w, e), w.pc.job);
  }

  lemma ActCovers(w: World, e: ActEvent)
    requires Base(w) && Covered(w) && ActEnabled(w, e)
    ensures Covered(NextAct(w, e))
  {
    match e
    case MarkHandle => MarkHandleCovers(w);
    case ActionAnswer(answer) => ActionCovers(w, answer);
    case StateAnswer(_, answer) => StateCovers(w, answer);
    case _ => StopCovers(w, e);
  }

  /** Only a build still in flight is deferred. */
  lemma DeferredIsInFlight(x: ExecutionResult, createdAt: nat, now: nat, ceilingMs: nat)
    ensures var s := Classify(HandlerOutcome(x), createdAt, now, ceilingMs);
            s.write.DeferWrite? ==> InFlight(AppliedStatus(s.result))
  {
  }

  lemma WriteQueueFrame(w: World)
    requires AtStage(w) && w.pc.stage.Settling? && forall j :: j in w.ledger.calls ==> j < |w.jobs|
    ensures OnlyJob(w, OnWriteQueue(w), w.pc.job) && OnWriteQueue(w).rows == w.rows
  {
  }

  /** A deferral gives the attempt back: it is paid for by a pollable row, or owed until the row is mirrored. */
  lemma WriteQueueJob(w: World)
    requires AtStage(w) && w.pc.stage.Settling? && JobOk(w.jobs[w.pc.job]) && w.jobs[w.pc.job].state == JobRunning
    requires JobCovered(w, w.pc.job)
    ensures JobCovered(OnWriteQueue(w), w.pc.job)
  {
  }

  lemma WriteQueueCovers(w: World)
    requires Base(w) && Covered(w) && AtStage(w) && w.pc.stage.Settling?
    ensures Covered(OnWriteQueue(w))
  {
    assert JobOk(w.jobs[w.pc.job]);
    if IsDeployment(w.jobs[w.pc.job]) {
      WriteQueueJob(w);
    }
    WriteQueueFrame(w);
    OwnStepCovers(w, OnWriteQueue(w), w.pc.job);
  }

  /**
   Mirroring a build that is in flight keeps it pollable: handles are never cleared. One
   still owed is now there, or counted.
   */
  lemma WriteRowJob(w: World)
    requires AtMirror(w) && w.pc.mirror.Applying? && RowMatches(w.jobs[w.pc.job], w.rows)
    requires IsDeployment(w.jobs[w.pc.job]) && JobCovered(w, w.pc.job)
    ensures JobCovered(OnWriteRow(w), w.pc.job)
  {
  }

  lemma WriteRowCovers(w: World)
    requires Base(w) && Covered(w) && AtMirror(w) && w.pc.mirror.Applying?
    ensures Covered(OnWriteRow(w))
  {
    var j := w.pc.job;
    if IsDeployment(w.jobs[j]) {
      assert JobCovered(w, j) && RowMatches(w.jobs[j], w.rows);
      WriteRowJob(w);
    }
    WriteRowFrame(w);
    OwnStepCovers(w, OnWriteRow(w), j);
  }

  lemma SettleCovers(w: World, e: SettleEvent)
    requires Base(w) && Covered(w) && SettleEnabled(w, e)
    ensures Covered(NextSettle(w, e))
  {
    match e
    case WriteQueue => WriteQueueCovers(w);
    case WriteRow => WriteRowCovers(w);
    case Decide =>
      DeferredIsInFlight(w.pc.stage.execution, w.jobs[w.pc.job].createdAt, w.now, w.cfg.pollCeilingMs);
      OwnStepCovers(w, OnDecide(w), w.pc.job);
    case Promote => OwnStepCovers(w, NextSettle(w, e), w.pc.job);
    case Meter => OwnStepCovers(w, NextSettle(w, e), w.pc.job);
  }

  /** Settling a row takes a pollable build away only from a finished job, or pays for it as an early settlement. */
  lemma SweepWriteCovers(w: World)
    requires Base(w) && Covered(w) && w.pc.Sweeping? && w.pc.visit.Writing? && w.pc.visit.decision.Settle?
    ensures Covered(OnSweepWrite(w))
  {
    var w' := OnSweepWrite(w);
    forall i | 0 <= i < |w'.jobs| && IsDeployment(w'.jobs[i]) ensures JobCovered(w', i) {
      assert JobCovered(w, i);
      if RowKey(w.jobs[i]) == w.pc.visit.row.key {
        assert TerminalJob(w.jobs[i].state) || !JobFinished(w, w.pc.visit.row.key);
      } else {
        assert SameCover(w, w', i);
      }
    }
  }

  lemma SweepCovers(w: World, e: SweepEvent)
    requires Base(w) && Covered(w) && SweepEnabled(w, e)
    ensures Covered(NextSweep(w, e))
  {
    if e.SweepWrite? {
      SweepWriteCovers(w);
    } else {
      var w' := NextSweep(w, e);
      forall i | 0 <= i < |w'.jobs| && IsDeployment(w'.jobs[i]) ensures JobCovered(w', i) {
        assert JobCovered(w, i) && SameCover(w, w', i);
      }
    }
  }

  lemma StepCovers(w: World, e: Event)
    requires Base(w) && Covered(w) && Enabled(w, e)
    ensures Covered(Next(w, e))
  {
    match e
    case Env(env) => EnvCovers(w, env);
    case Prepare(prepare) => PrepareCovers(w, prepare);
    case Act(act) => ActCovers(w, act);
    case Settled(settle) => SettleCovers(w, settle);
    case Swept(sweep) => SweepCovers(w, sweep);
  }

  /** The bound every covered state gives: a waiting job's spare call is matched by an attempt it has not used. */
  lemma CoveredBound(w: World, j: nat)
    requires Base(w) && Covered(w) && j < |w.jobs| && IsDeployment(w.jobs[j])
    ensures w.ledger.calls[j] <= w.jobs[j].maxAttempts + w.ledger.early[RowKey(w.jobs[j])] + w.ledger.unaddressed[j]
  {
    assert JobCovered(w, j) && JobOk(w.jobs[j]);
    if w.pc.Holding? && w.pc.job == j {
      StageRests(w.pc.stage, Pollable(w.rows, RowKey(w.jobs[j])), w.ledger.calls[j], Paid(w, j));
    }
  }
}
