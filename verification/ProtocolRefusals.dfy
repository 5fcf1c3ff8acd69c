/**
 An engine that accepts no work at all.

 Every deploy and rollback call is refused for good, throws or is lost. Then no row
 ever holds a handle, no claim that made a call is deferred, and each call has spent
 its own attempt, whatever the sweep settles meanwhile.
 */
module ProtocolRefusals {
  import opened Contracts
  import opened Queue
  import opened Deployments
  import opened Protocol
  import opened ProtocolFrames
  import opened ProtocolBase
  import opened ProtocolCalls
  import opened ProtocolRuns

  /** The event is no deploy or rollback call accepted, or refused for the time being. */
  predicate Refuses(e: Event) {
    e.Act? && e.act.ActionAnswer? ==> e.act.action.Err? && !InFlight(e.act.action.status)
  }

  /** Each call so far, and the one still to come, has an attempt of its own; after one, the claim is not deferred. */
  predicate StagePays(stage: Stage, calls: nat, attempts: nat) {
    match stage
    case Polling(_, _) => false
    case Marking(_, _, _, _) => false
    case Reading(_, _, _, _) => false
    case Returned(called, x) =>
      x.handle.None? && (if called then calls <= attempts && !InFlight(x.status) else calls + 1 <= attempts)
    case Settling(called, write, result, _) =>
      && (result.Ok? ==> result.value.handle.None?)
      && (if called then calls <= attempts && !write.DeferWrite? else calls + 1 <= attempts)
    case _ => calls + 1 <= attempts
  }

  predicate JobPays(w: World, j: nat)
    requires j < |w.jobs|
  {
    if w.pc.Holding? && w.pc.job == j then StagePays(w.pc.stage, w.ledger.calls[j], w.jobs[j].attempts)
    else w.ledger.calls[j] <= w.jobs[j].attempts
  }

  ghost predicate NoHandles(w: World) {
    && (forall k :: k in w.rows ==> w.rows[k].handle.None?)
    && (AtMirror(w) && IsDeployment(w.jobs[w.pc.job]) && w.pc.mirror.Applying? && w.pc.mirror.result.Ok? ==>
          w.pc.mirror.result.value.handle.None?)
  }

  ghost predicate Paying(w: World) {
    && NoHandles(w)
    && (forall j :: 0 <= j < |w.jobs| && IsDeployment(w.jobs[j]) ==> JobPays(w, j))
  }

  // ---------------------------------------------------------------- steps

  lemma ClaimPays(w: World)
    requires Paying(w) && EnvEnabled(w, Claim)
    ensures Paying(OnClaim(w))
  {
    var w' := OnClaim(w);
    var i := FirstClaimable(w.jobs, w.now).value;
    forall j | 0 <= j < |w'.jobs| && IsDeployment(w'.jobs[j]) ensures JobPays(w', j) {
      assert IsDeployment(w.jobs[j]) && JobPays(w, j);
      assert j != i ==> w'.jobs[j] == w.jobs[j];
    }
  }

  /** Letting go of a job never takes a payment back. */
  lemma LeavesPaying(w: World, w': World)
    requires Paying(w) && |w'.jobs| == |w.jobs| && w'.rows == w.rows && w'.ledger.calls == w.ledger.calls
    requires forall j :: 0 <= j < |w.jobs| ==>
               w'.jobs[j].kind == w.jobs[j].kind && w'.jobs[j].attempts == w.jobs[j].attempts
    requires w'.pc == w.pc || w'.pc.Idle?
    ensures Paying(w')
  {
    forall j | 0 <= j < |w'.jobs| && IsDeployment(w'.jobs[j]) ensures JobPays(w', j) {
      assert JobPays(w, j);
    }
  }

  lemma EnvPays(w: World, e: EnvEvent)
    requires Base(w) && Covered(w) && Paying(w) && EnvEnabled(w, e)
    ensures Paying(NextEnv(w, e))
  {
    match e
    case Advance(_) => LeavesPaying(w, NextEnv(w, e));
    case CreateRow(_, _) =>
      forall j | 0 <= j < |w.jobs| && IsDeployment(w.jobs[j]) ensures JobPays(NextEnv(w, e), j) {
        assert JobPays(w, j);
      }
    case Submit(input) =>
      var w' := NextEnv(w, e);
      forall j | 0 <= j < |w'.jobs| && IsDeployment(w'.jobs[j]) ensures JobPays(w', j) {
        if j < |w.jobs| {
          assert w'.jobs[j] == w.jobs[j] && JobPays(w, j);
        }
      }
    case Reap => LeavesPaying(w, OnReap(w));
    case Claim => ClaimPays(w);
    case Crash =>
      LetGoFrame(w);
      LeavesPaying(w, LetGo(w));
  }

  /** A step of the handler's: no other job, and no handle, is touched. */
  lemma HandlerPays(w: World, w': World)
    requires Paying(w) && AtStage(w) && w'.jobs == w.jobs && (w'.pc.Holding? ==> w'.pc.job == w.pc.job)
    requires w'.ledger.calls == w.ledger.calls || w'.ledger.calls == w.ledger.calls + multiset{w.pc.job}
    requires w'.pc.Idle? || w'.pc.Holding?
    requires forall k :: k in w'.rows ==> w'.rows[k].handle.None?
    requires IsDeployment(w.jobs[w.pc.job]) ==> JobPays(w', w.pc.job)
    ensures Paying(w')
  {
    forall j | 0 <= j < |w'.jobs| && IsDeployment(w'.jobs[j]) ensures JobPays(w', j) {
      assert JobPays(w, j);
    }
  }

  lemma DispatchPays(w: World, p: Payload, serverless: bool, calls: nat, attempts: nat)
    requires NoHandles(w) && calls + 1 <= attempts
    ensures StagePays(Dispatch(w, p, serverless), calls, attempts)
  {
  }

  lemma PrepareJobPays(w: World, e: PrepareEvent)
    requires PrepareEnabled(w, e) && NoHandles(w) && JobPays(w, w.pc.job)
    ensures JobPays(NextPrepare(w, e), w.pc.job)
  {
    match e
    case Start(serverless) =>
      DispatchPays(w, w.jobs[w.pc.job].payload, serverless, w.ledger.calls[w.pc.job], w.jobs[w.pc.job].attempts);
    case _ =>
  }

  lemma PrepareKeepsCalls(w: World, e: PrepareEvent)
    requires PrepareEnabled(w, e)
    ensures NextPrepare(w, e).ledger.calls == w.ledger.calls
  {
  }

  lemma PreparePays(w: World, e: PrepareEvent)
    requires Base(w) && Paying(w) && PrepareEnabled(w, e)
    ensures Paying(NextPrepare(w, e))
  {
    if e.MarkBuild? {
      assert RowMatches(w.jobs[w.pc.job], w.rows);
      MarkBuildFrame(w);
    } else {
      PrepareFrame(w, e);
    }
    if IsDeployment(w.jobs[w.pc.job]) { PrepareJobPays(w, e); }
    PrepareKeepsCalls(w, e);
    HandlerPays(w, NextPrepare(w, e));
  }

  lemma ActJobPays(w: World, e: ActEvent)
    requires ActEnabled(w, e) && Refuses(Act(e)) && JobPays(w, w.pc.job)
    ensures !e.MarkHandle? && !e.StateAnswer?
    ensures JobPays(NextAct(w, e), w.pc.job)
  {
  }

  lemma ActPays(w: World, e: ActEvent)
    requires Base(w) && Paying(w) && ActEnabled(w, e) && Refuses(Act(e))
    ensures Paying(NextAct(w, e))
  {
    assert IsDeployment(w.jobs[w.pc.job]) ==> JobPays(w, w.pc.job);
    if IsDeployment(w.jobs[w.pc.job]) { ActJobPays(w, e); }
    ActFrame(w, e);
    HandlerPays(w, NextAct(w, e));
  }

  lemma DecidePays(w: World)
    requires Base(w) && Paying(w) && AtStage(w) && w.pc.stage.Returned?
    ensures Paying(OnDecide(w))
  {
    HandlerPays(w, OnDecide(w));
  }

  lemma WriteQueuePays(w: World)
    requires Base(w) && Paying(w) && AtStage(w) && w.pc.stage.Settling?
    ensures Paying(OnWriteQueue(w))
  {
    var w' := OnWriteQueue(w);
    forall j | 0 <= j < |w'.jobs| && IsDeployment(w'.jobs[j]) ensures JobPays(w', j) {
      assert IsDeployment(w.jobs[j]) && JobPays(w, j);
    }
  }

  lemma SettlePays(w: World, e: SettleEvent)
    requires Base(w) && Paying(w) && SettleEnabled(w, e)
    ensures Paying(NextSettle(w, e))
  {
    match e
    case Decide => DecidePays(w);
    case WriteQueue => WriteQueuePays(w);
    case WriteRow =>
      if IsDeployment(w.jobs[w.pc.job]) { assert RowMatches(w.jobs[w.pc.job], w.rows); }
      WriteRowFrame(w);
      RowPays(w, OnWriteRow(w));
    case _ => RowPays(w, NextSettle(w, e));
  }

  /** A step that writes rows without handles and holds no job. */
  lemma RowPays(w: World, w': World)
    requires Paying(w) && !w.pc.Holding? && !w'.pc.Holding? && (w'.pc.Mirroring? ==> !w'.pc.mirror.Applying?)
    requires w'.jobs == w.jobs && w'.ledger.calls == w.ledger.calls
    requires forall k :: k in w'.rows ==> w'.rows[k].handle.None?
    ensures Paying(w')
  {
    forall j | 0 <= j < |w'.jobs| && IsDeployment(w'.jobs[j]) ensures JobPays(w', j) {
      assert JobPays(w, j);
    }
  }

  lemma SweepPays(w: World, e: SweepEvent)
    requires Base(w) && Paying(w) && SweepEnabled(w, e)
    ensures Paying(NextSweep(w, e))
  {
    if e.SweepWrite? {
      assert Unvisited(w.pc)[0] == w.pc.visit.row;
    }
    RowPays(w, NextSweep(w, e));
  }

  lemma StepPays(w: World, e: Event)
    requires Base(w) && Covered(w) && Paying(w) && Enabled(w, e) && Refuses(e)
    ensures Paying(Next(w, e))
  {
    match e
    case Env(env) => EnvPays(w, env);
    case Prepare(prepare) => PreparePays(w, prepare);
    case Act(act) => ActPays(w, act);
    case Settled(settle) => SettlePays(w, settle);
    case Swept(sweep) => SweepPays(w, sweep);
  }

  lemma {:induction false} RunPays(states: seq<World>, events: seq<Event>, i: nat)
    requires Run(states, events) && i < |states|
    requires forall k :: 0 <= k < |events| ==> Refuses(events[k])
    ensures Paying(states[i])
  {
    if i > 0 {
      RunPays(states, events, i - 1);
      RunInvariant(states, events, i - 1);
      StepPays(states[i - 1], events[i - 1]);
    }
  }

  /** Whatever the configuration, refusals alone never cost more calls than the budget. */
  lemma RefusalsKeepTheBudget(states: seq<World>, events: seq<Event>, j: nat)
    requires Run(states, events) && j < |Last(states).jobs| && IsDeployment(Last(states).jobs[j])
    requires forall k :: 0 <= k < |events| ==> Refuses(events[k])
    ensures Last(states).ledger.calls[j] <= Last(states).jobs[j].maxAttempts
  {
    RunPays(states, events, |states| - 1);
    RunInvariant(states, events, |states| - 1);
    assert JobPays(Last(states), j) && JobOk(Last(states).jobs[j]);
  }
}
