/**
 How a claim ends, told by what the engine answered: the job as the queue then holds
 it, the row as the customer then sees it, the pointer and the usage.
 */
module ProtocolEndings {
  import opened Contracts
  import opened Queue
  import opened Deployments
  import opened Protocol
  import opened ProtocolFrames
  import opened ProtocolBase
  import opened ProtocolClaims
  import opened ProtocolRuns
  import opened ProtocolSteps

  // ---------------------------------------------------------------- from an answer to a result

  /**
   What the handler reports once it has read a state. The engine's own status and
   address; on a poll its own reason too, after a fresh action only that of a failure.
   When the engine cannot be asked, a poll reports the refusal and a fresh action the
   status it was accepted with.
   */
  predicate Reports(stage: Stage, answer: AdapterResult<DeploymentState>, x: ExecutionResult) {
    match stage
    case Polling(app, handle) =>
      && x.app == app && x.handle == Some(handle) && x.build.None?
      && (answer.Ok? ==>
            x.status == answer.value.status && x.url == answer.value.url && x.reason == answer.value.reason)
      && (answer.Err? ==> x.status == answer.status && x.url.None? && x.reason == Some(answer.reason))
    case Reading(accepted, app, ref, build) =>
      && x.app == Some(app) && x.build == build
      && x.handle == (if ref.resourceType == DeploymentRef then Some(ref.id) else None)
      && (answer.Ok? ==>
            && x.status == answer.value.status && x.url == answer.value.url
            && x.reason == if x.status in {Succeeded, Pending, Running} then None else answer.value.reason)
      && (answer.Err? ==> x.status == accepted && x.url.None? && x.reason.None?)
    case _ => false
  }

  lemma ReportsAfter(w: World, asked: ProviderRef, answer: AdapterResult<DeploymentState>, at: World, next: Event)
    requires ActEnabled(w, StateAnswer(asked, answer)) && Kept(OnStateAnswer(w, answer), at)
    requires Enabled(at, next) && !next.Env?
    ensures next == Settled(Decide) && at.pc.Holding? && at.pc.job == w.pc.job && at.pc.stage.Returned?
    ensures Reports(w.pc.stage, answer, at.pc.stage.execution)
  {
  }

  /** A state that was read is reported, and nothing else is asked. */
  lemma StatesAreReported(states: seq<World>, events: seq<Event>, i: nat, k: nat)
    requires Run(states, events) && NextStep(events, i, k) && events[i].Act? && events[i].act.StateAnswer?
    ensures states[i].pc.Holding? && events[k] == Settled(Decide)
    ensures states[k].pc.Holding? && states[k].pc.job == states[i].pc.job && states[k].pc.stage.Returned?
    ensures Reports(states[i].pc.stage, events[i].act.state, states[k].pc.stage.execution)
  {
    StepThenKept(states, events, i, k);
    ReportsAfter(states[i], events[i].act.asked, events[i].act.state, states[k], events[k]);
  }

  // ---------------------------------------------------------------- from a result to the job

  /** The engine's own success, with nothing to explain. */
  predicate Won(x: ExecutionResult) {
    x.status == Succeeded && x.reason.None?
  }

  /** The build is still reported in flight, and the job is as old as the ceiling. */
  predicate Late(x: ExecutionResult, createdAt: nat, decided: nat, cfg: Config) {
    x.status in {Pending, Running} && createdAt + cfg.pollCeilingMs <= decided
  }

  /** The job as the queue holds it after the claim: who it is never changes, and its lease is gone. */
  predicate Released(before: Job<Payload>, after: Job<Payload>) {
    SameJob(before, after) && after.leaseExpiresAt.None?
  }

  /**
   How a handler's result ends the claim. A success completes the job. A build in
   flight gives the attempt back and waits a backoff, until the ceiling, past which the
   job fails. A refusal for want of configuration, or by a degraded engine, fails the
   job at once, whatever attempts remain. Any other outcome is tried again exactly
   while attempts remain.
   */
  predicate Ends(before: Job<Payload>, after: Job<Payload>, x: ExecutionResult, decided: nat, told: nat, cfg: Config) {
    && Released(before, after)
    && if Won(x) then
         after.state == JobSucceeded && after.attempts == before.attempts && after.finishedAt == Some(told)
       else if x.status in {Pending, Running} && !Late(x, before.createdAt, decided, cfg) then
         && after.state == JobQueued && after.attempts == before.attempts - 1
         && after.deferredUntil == if cfg.pollBackoffMs == 0 then None else Some(told + cfg.pollBackoffMs)
       else if x.status in {Pending, Running, NotConfigured, Degraded} then
         after.state == JobFailed && after.attempts == before.attempts && after.finishedAt == Some(told)
       else
         && after.attempts == before.attempts && after.deferredUntil == before.deferredUntil
         && after.state == if before.attempts < before.maxAttempts then JobQueued else JobFailed
  }

  /** Why it ended so is kept on the job: the engine's own reason when it gave one. */
  predicate Explained(after: Job<Payload>, x: ExecutionResult) {
    && (Won(x) ==> after.lastError.None?)
    && (!Won(x) ==> after.lastError.Some?)
    && (x.reason.Some? && x.status !in {Pending, Running} ==> after.lastError == x.reason)
  }

  lemma DecideSays(w: World, at: World)
    requires Base(w) && AtStage(w) && w.pc.stage.Returned? && Kept(OnDecide(w), at) && AtStage(at)
    ensures at.pc.job == w.pc.job && at.pc.stage.Settling?
    ensures var after := OnWriteQueue(at).jobs[w.pc.job];
            && Ends(w.jobs[w.pc.job], after, w.pc.stage.execution, w.now, at.now, w.cfg)
            && Explained(after, w.pc.stage.execution)
  {
    assert JobOk(w.jobs[w.pc.job]);
  }

  /** The worker's next step after its decision tells the queue, and the job then is what the result makes of it. */
  lemma ClaimEnds(states: seq<World>, events: seq<Event>, i: nat, k: nat)
    requires Run(states, events) && NextStep(events, i, k) && events[i] == Settled(Decide)
    ensures states[i].pc.Holding? && states[i].pc.stage.Returned? && events[k] == Settled(WriteQueue)
    ensures var j, x := states[i].pc.job, states[i].pc.stage.execution;
            && j < |states[i].jobs| && j < |states[k + 1].jobs|
            && Ends(states[i].jobs[j], states[k + 1].jobs[j], x, states[i].now, states[k].now, states[i].cfg)
            && Explained(states[k + 1].jobs[j], x)
  {
    RunInvariant(states, events, i);
    StepThenKept(states, events, i, k);
    DecideSays(states[i], states[k]);
  }

  /** A handler that throws fails the attempt, which is tried again exactly while attempts remain. */
  lemma ThrowsAreTriedAgain(states: seq<World>, events: seq<Event>, i: nat, k: nat)
    requires Run(states, events) && NextStep(events, i, k) && events[i].Act?
    requires events[i].act.Throw? || events[i].act.ActionThrew?
    ensures states[i].pc.Holding? && events[k] == Settled(WriteQueue)
    ensures var j := states[i].pc.job;
            && j < |states[i].jobs| && j < |states[k + 1].jobs|
            && var before, after := states[i].jobs[j], states[k + 1].jobs[j];
            && Released(before, after) && after.attempts == before.attempts
               && after.lastError == Some(events[i].act.reason)
            && after.state == if before.attempts < before.maxAttempts then JobQueued else JobFailed
  {
    StepThenKept(states, events, i, k);
  }

  /** A job nobody handles fails at once. */
  lemma UnhandledJobsFail(states: seq<World>, events: seq<Event>, i: nat, k: nat)
    requires Run(states, events) && NextStep(events, i, k) && events[i] == Prepare(NoHandler)
    ensures states[i].pc.Holding? && events[k] == Settled(WriteQueue)
    ensures var j := states[i].pc.job;
            && j < |states[i].jobs| && j < |states[k + 1].jobs| && states[i].jobs[j].kind != DEPLOYMENT_JOB_KIND
            && Released(states[i].jobs[j], states[k + 1].jobs[j]) && states[k + 1].jobs[j].state == JobFailed
  {
    StepThenKept(states, events, i, k);
  }

  // ---------------------------------------------------------------- never again

  lemma StepClaimsNoFinished(w: World, e: Event, j: nat)
    requires Base(w) && Enabled(w, e) && j < |w.jobs| && TerminalJob(w.jobs[j].state)
    ensures Next(w, e).ledger.claims[j] == w.ledger.claims[j]
  {
    match e
    case Env(env) => if env.Crash? { LetGoFrame(w); }
    case Prepare(prepare) => PrepareQuiet(w, prepare);
    case Act(act) => ActQuiet(w, act);
    case Settled(settle) => SettleCallsNothing(w, settle);
    case Swept(sweep) => SweepQuiet(w, sweep);
  }

  lemma FinishedIsNotClaimed(states: seq<World>, events: seq<Event>, i: nat, m: nat, j: nat)
    requires Run(states, events) && i <= m < |events|
    requires j < |states[i].jobs| && TerminalJob(states[i].jobs[j].state)
    ensures states[m + 1].ledger.claims[j] == states[m].ledger.claims[j]
  {
    FinishedForever(states, events, i, m, j);
    RunInvariant(states, events, m);
    StepClaimsNoFinished(states[m], events[m], j);
  }

  /** The count stands still wherever no step moves it. */
  lemma {:induction false} ClaimsStandStill(states: seq<World>, i: nat, k: nat, j: nat)
    requires i <= k < |states|
    requires forall m :: i <= m < k ==> states[m + 1].ledger.claims[j] == states[m].ledger.claims[j]
    ensures states[k].ledger.claims[j] == states[i].ledger.claims[j]
  {
    if i < k {
      ClaimsStandStill(states, i, k - 1, j);
      assert states[k - 1 + 1].ledger.claims[j] == states[k - 1].ledger.claims[j];
    }
  }

  /** A finished job is never claimed again. */
  lemma NeverClaimedAgain(states: seq<World>, events: seq<Event>, i: nat, k: nat, j: nat)
    requires Run(states, events) && i <= k < |states|
    requires j < |states[i].jobs| && TerminalJob(states[i].jobs[j].state)
    ensures j < |states[k].jobs| && states[k].jobs[j] == states[i].jobs[j]
    ensures states[k].ledger.claims[j] == states[i].ledger.claims[j]
  {
    FinishedForever(states, events, i, k, j);
    forall m | i <= m < k ensures states[m + 1].ledger.claims[j] == states[m].ledger.claims[j] {
      FinishedIsNotClaimed(states, events, i, m, j);
    }
    ClaimsStandStill(states, i, k, j);
  }

  /**
   So a refusal for want of configuration, or by a degraded engine, is final: the job
   failed, and no later claim takes it.
   */
  lemma FinalRefusalsAreFinal(states: seq<World>, events: seq<Event>, i: nat, k: nat, later: nat)
    requires Run(states, events) && NextStep(events, i, k) && events[i] == Settled(Decide) && k < later < |states|
    requires states[i].pc.Holding? && states[i].pc.stage.Returned?
    requires states[i].pc.stage.execution.status in {NotConfigured, Degraded}
    ensures var j := states[i].pc.job;
            && j < |states[later].jobs| && states[later].jobs[j].state == JobFailed
            && states[later].ledger.claims[j] == states[k + 1].ledger.claims[j]
  {
    ClaimEnds(states, events, i, k);
    NeverClaimedAgain(states, events, k + 1, later, states[i].pc.job);
  }

  // ---------------------------------------------------------------- from a result to the row

  /** A handle is set when the result carries one, and left as it was otherwise. */
  predicate SetOrLeft(before: Option<string>, after: Option<string>, given: Option<string>) {
    after == if given.Some? then given else before
  }

  /**
   The row as the result leaves it. A success, or a build in flight below the ceiling,
   is shown with its address and its handles and no reason. Anything else is shown with
   its status and its reason, without an address, and no handle is lost.
   */
  predicate Shows(before: Row, after: Row, x: ExecutionResult, late: bool, at: nat) {
    if x.reason.None? && x.status in {Succeeded, Pending, Running} && !late then
      && Written(before, after, x.status, x.url, None, at)
      && SetOrLeft(before.app, after.app, x.app) && SetOrLeft(before.handle, after.handle, x.handle)
      && SetOrLeft(before.build, after.build, x.build)
    else
      && after.failureReason.Some? && Written(before, after, x.status, None, after.failureReason, at)
      && (x.reason.Some? && !late ==> after.failureReason == x.reason)
      && after.app == before.app && after.handle == before.handle && after.build == before.build
  }

  /** Decided at one state, told at the next, and mirrored at the third. */
  ghost predicate Mirrored(events: seq<Event>, i: nat, k: nat, m: nat) {
    && NextStep(events, i, k) && NextStep(events, k, m)
    && events[i] == Settled(Decide) && events[k] == Settled(WriteQueue) && events[m] == Settled(WriteRow)
  }

  /** What the applier is handed: the result itself when it is shown as one, otherwise the status and a reason. */
  predicate Handed(result: AdapterResult<ExecutionResult>, x: ExecutionResult, late: bool) {
    if x.reason.None? && x.status in {Succeeded, Pending, Running} && !late
    then result == Ok(x.status, x)
    else result.Err? && result.status == x.status && (x.reason.Some? && !late ==> result.reason == x.reason.value)
  }

  lemma ToldSays(w: World, told: World)
    requires Base(w) && AtStage(w) && w.pc.stage.Returned? && Kept(OnDecide(w), told) && AtStage(told)
    ensures var j, x, pc := w.pc.job, w.pc.stage.execution, OnWriteQueue(told).pc;
            && pc.Mirroring? && pc.job == j && pc.mirror.Applying?
            && Handed(pc.mirror.result, x, Late(x, w.jobs[j].createdAt, w.now, w.cfg))
  {
  }

  lemma ApplySays(row: Row, result: AdapterResult<ExecutionResult>, x: ExecutionResult, late: bool, at: nat)
    requires Handed(result, x, late)
    ensures Shows(row, ApplyToRow(row, result, at), x, late, at)
  {
  }

  /**
   Where the applier goes once the row is written: on to the pointer and the usage for a
   success, and nowhere else.
   */
  predicate GoesOn(pc: Pc, j: nat, p: Payload, won: bool) {
    pc == if !won then Idle else Mirroring(j, if p.kind == Production && !p.staged then Promoting else Metering)
  }

  lemma WriteRowSays(w: World, x: ExecutionResult, late: bool)
    requires Base(w) && AtMirror(w) && w.pc.mirror.Applying? && IsDeployment(w.jobs[w.pc.job])
    requires Handed(w.pc.mirror.result, x, late) && (late ==> !Won(x))
    ensures var job, w' := w.jobs[w.pc.job], OnWriteRow(w);
            var key := Key(job.payload.organization, job.payload.deploymentId);
            && key in w.rows && key in w'.rows && Shows(w.rows[key], w'.rows[key], x, late, w.now)
            && (forall other :: other in w.rows && other != key ==> other in w'.rows && w'.rows[other] == w.rows[other])
            && GoesOn(w'.pc, w.pc.job, job.payload, Won(x))
  {
    assert RowMatches(w.jobs[w.pc.job], w.rows);
    WriteRowFrame(w);
    ApplySays(w.rows[RowKey(w.jobs[w.pc.job])], w.pc.mirror.result, x, late, w.now);
  }

  /** The applier is at the row of this job, with what the result came to. */
  lemma MirrorsTheResult(states: seq<World>, events: seq<Event>, i: nat, k: nat, m: nat)
    requires Run(states, events) && Mirrored(events, i, k, m)
    ensures AtStage(states[i]) && states[i].pc.stage.Returned?
    ensures var j, x := states[i].pc.job, states[i].pc.stage.execution;
            && AtMirror(states[m]) && states[m].pc.job == j && states[m].pc.mirror.Applying?
            && states[m].jobs[j].payload == states[i].jobs[j].payload
               && states[m].jobs[j].kind == states[i].jobs[j].kind
            && Handed(states[m].pc.mirror.result, x, Late(x, states[i].jobs[j].createdAt, states[i].now, states[i].cfg))
  {
    RunInvariant(states, events, i);
    StepThenKept(states, events, i, k);
    ToldSays(states[i], states[k]);
    StepThenKept(states, events, k, m);
    WriteQueueKeepsWho(states[k]);
  }

  lemma WriteQueueKeepsWho(w: World)
    requires AtStage(w) && w.pc.stage.Settling?
    ensures |OnWriteQueue(w).jobs| == |w.jobs|
    ensures OnWriteQueue(w).jobs[w.pc.job].payload == w.jobs[w.pc.job].payload
    ensures OnWriteQueue(w).jobs[w.pc.job].kind == w.jobs[w.pc.job].kind
  {
  }

  /** The row as the customer sees it after the claim, told by the handler's result. */
  lemma RowShowsTheResult(states: seq<World>, events: seq<Event>, i: nat, k: nat, m: nat)
    requires Run(states, events) && Mirrored(events, i, k, m)
    ensures AtStage(states[i]) && states[i].pc.stage.Returned?
    ensures var j, x := states[i].pc.job, states[i].pc.stage.execution;
            var p := states[i].jobs[j].payload;
            var key := Key(p.organization, p.deploymentId);
            states[i].jobs[j].kind == DEPLOYMENT_JOB_KIND ==>
              && key in states[m].rows && key in states[m + 1].rows
              && Shows(states[m].rows[key], states[m + 1].rows[key], x,
                       Late(x, states[i].jobs[j].createdAt, states[i].now, states[i].cfg), states[m].now)
              && GoesOn(states[m + 1].pc, j, p, Won(x))
  {
    MirrorsTheResult(states, events, i, k, m);
    RunInvariant(states, events, m);
    var j, x := states[i].pc.job, states[i].pc.stage.execution;
    if states[i].jobs[j].kind == DEPLOYMENT_JOB_KIND {
      assert states[m + 1] == OnWriteRow(states[m]);
      WriteRowSays(states[m], x, Late(x, states[i].jobs[j].createdAt, states[i].now, states[i].cfg));
    }
  }

  /**
   So the engine's own answer is what the row then says: its status always, its address
   unless there is a reason to show.
   */
  lemma AnswerReachesTheRow(states: seq<World>, events: seq<Event>, h: nat, i: nat, k: nat, m: nat)
    requires Run(states, events) && NextStep(events, h, i) && Mirrored(events, i, k, m)
    requires events[h].Act? && events[h].act.StateAnswer? && events[h].act.state.Ok?
    ensures AtStage(states[i])
    ensures var j, answer := states[i].pc.job, events[h].act.state.value;
            var job := states[i].jobs[j];
            var key := Key(job.payload.organization, job.payload.deploymentId);
            job.kind == DEPLOYMENT_JOB_KIND ==>
              && key in states[m].rows && key in states[m + 1].rows
              && states[m + 1].rows[key].status == answer.status
              && (answer.status == Succeeded && answer.reason.None? ==>
                    Written(states[m].rows[key], states[m + 1].rows[key], Succeeded, answer.url, None, states[m].now))
  {
    StatesAreReported(states, events, h, i);
    RowShowsTheResult(states, events, i, k, m);
  }

  // ---------------------------------------------------------------- the pointer and the usage

  /**
   Past the row of a success the applier moves the project's pointer to a production
   deployment that was not staged, and to no other, and then counts one unit of usage;
   past any other row it does neither.
   */
  lemma SuccessGoesLiveAndIsCounted(states: seq<World>, events: seq<Event>, i: nat, k: nat, m: nat, n: nat)
    requires Run(states, events) && Mirrored(events, i, k, m) && NextStep(events, m, n)
    requires states[i].pc.Holding? && states[i].pc.stage.Returned? && states[i].pc.job < |states[i].jobs|
    requires states[i].jobs[states[i].pc.job].kind == DEPLOYMENT_JOB_KIND
    ensures var x, p := states[i].pc.stage.execution, states[i].jobs[states[i].pc.job].payload;
            var key := Key(p.organization, p.deploymentId);
            if !Won(x) then
              states[m + 1].pc.Idle? && states[m + 1].usage == states[m].usage && states[m + 1].live == states[m].live
            else if p.kind == Production && !p.staged then
              states[n + 1].live == states[m].live[Key(p.organization, p.projectId) := key]
                && states[n + 1].usage == states[m].usage
            else
              states[n + 1].live == states[m].live && states[n + 1].usage == states[m].usage + multiset{key}
  {
    RowShowsTheResult(states, events, i, k, m);
    MirrorsTheResult(states, events, i, k, m);
    RunInvariant(states, events, m);
    RowWriteMovesNothing(states[m]);
    if Won(states[i].pc.stage.execution) { StepThenKept(states, events, m, n); }
  }

  lemma RowWriteMovesNothing(w: World)
    requires Base(w) && AtMirror(w) && w.pc.mirror.Applying?
    ensures OnWriteRow(w).live == w.live && OnWriteRow(w).usage == w.usage && OnWriteRow(w).jobs == w.jobs
  {
    if IsDeployment(w.jobs[w.pc.job]) { assert RowMatches(w.jobs[w.pc.job], w.rows); }
    WriteRowFrame(w);
  }

  /** The pointer once moved, one unit of usage is counted. */
  lemma PromotedIsCounted(states: seq<World>, events: seq<Event>, i: nat, k: nat)
    requires Run(states, events) && NextStep(events, i, k) && events[i] == Settled(Promote)
    ensures AtMirror(states[i]) && events[k] == Settled(Meter)
    ensures var p := states[i].jobs[states[i].pc.job].payload;
            && states[i + 1].live
                 == states[i].live[Key(p.organization, p.projectId) := Key(p.organization, p.deploymentId)]
            && states[k + 1].usage == states[i].usage + multiset{Key(p.organization, p.deploymentId)}
               && states[k + 1].pc.Idle?
  {
    StepThenKept(states, events, i, k);
  }
}
