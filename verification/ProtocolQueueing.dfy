/**
 Jobs from the API to the queue's hands and back: what a submission files, what a claim
 takes and for how long, and what a reap returns.
 */
module ProtocolQueueing {
  import opened Contracts
  import opened Queue
  import opened Deployments
  import opened Protocol
  import opened ProtocolFrames
  import opened ProtocolBase
  import opened ProtocolClaims
  import opened ProtocolRuns

  // ---------------------------------------------------------------- leases

  /** A running job's lease runs out one lease after it was started. */
  ghost predicate Leased(w: World) {
    forall j :: 0 <= j < |w.jobs| && w.jobs[j].state == JobRunning ==>
                  && w.jobs[j].startedAt.Some? && w.jobs[j].startedAt.value <= w.now
                  && w.jobs[j].leaseExpiresAt == Some(w.jobs[j].startedAt.value + w.cfg.leaseMs)
  }

  lemma SameJobsLeased(w: World, w': World)
    requires Leased(w) && w'.jobs == w.jobs && w'.cfg == w.cfg && w'.now >= w.now
    ensures Leased(w')
  {
  }

  lemma EnvLeased(w: World, e: EnvEvent)
    requires Base(w) && Leased(w) && EnvEnabled(w, e)
    ensures Leased(NextEnv(w, e))
  {
    if e.Crash? {
      LetGoFrame(w);
      SameJobsLeased(w, LetGo(w));
    }
  }

  lemma WriteQueueLeased(w: World)
    requires Base(w) && Leased(w) && AtStage(w) && w.pc.stage.Settling?
    ensures Leased(OnWriteQueue(w))
  {
    assert forall j :: 0 <= j < |w.jobs| && j != w.pc.job ==> OnWriteQueue(w).jobs[j] == w.jobs[j];
  }

  lemma SettleLeased(w: World, e: SettleEvent)
    requires Base(w) && Leased(w) && SettleEnabled(w, e)
    ensures Leased(NextSettle(w, e))
  {
    match e
    case WriteQueue => WriteQueueLeased(w);
    case WriteRow =>
      if IsDeployment(w.jobs[w.pc.job]) { assert RowMatches(w.jobs[w.pc.job], w.rows); }
      WriteRowFrame(w);
      SameJobsLeased(w, OnWriteRow(w));
    case _ => SameJobsLeased(w, NextSettle(w, e));
  }

  lemma StepLeased(w: World, e: Event)
    requires Base(w) && Leased(w) && Enabled(w, e)
    ensures Leased(Next(w, e))
  {
    match e
    case Env(env) => EnvLeased(w, env);
    case Prepare(prepare) =>
      PrepareQuiet(w, prepare);
      SameJobsLeased(w, NextPrepare(w, prepare));
    case Act(act) =>
      ActQuiet(w, act);
      SameJobsLeased(w, NextAct(w, act));
    case Settled(settle) => SettleLeased(w, settle);
    case Swept(sweep) =>
      SweepQuiet(w, sweep);
      SameJobsLeased(w, NextSweep(w, sweep));
  }

  lemma {:induction false} RunLeased(states: seq<World>, events: seq<Event>, i: nat)
    requires Run(states, events) && i < |states|
    ensures Leased(states[i])
  {
    if i > 0 {
      RunLeased(states, events, i - 1);
      RunInvariant(states, events, i - 1);
      StepLeased(states[i - 1], events[i - 1]);
    }
  }

  /** Everything but one job is as it was. */
  predicate OthersSame(before: seq<Job<Payload>>, after: seq<Job<Payload>>, j: nat) {
    |after| == |before| && forall i :: 0 <= i < |before| && i != j ==> after[i] == before[i]
  }

  /**
   A claim takes a job that waits, has an attempt left and is due, no earlier one being
   so; it spends one attempt, starts the lease, and puts the worker on that job.
   */
  lemma ClaimTakesAJob(states: seq<World>, events: seq<Event>, i: nat)
    requires Run(states, events) && i < |events| && events[i] == Env(Claim)
    ensures states[i + 1].pc.Holding? && states[i + 1].pc.stage == Started
    ensures var w, w', j := states[i], states[i + 1], states[i + 1].pc.job;
            && j < |w.jobs| && OthersSame(w.jobs, w'.jobs, j) && SameJob(w.jobs[j], w'.jobs[j])
            && w.jobs[j].state == JobQueued && w.jobs[j].attempts < w.jobs[j].maxAttempts
            && (w.jobs[j].deferredUntil.Some? ==> w.jobs[j].deferredUntil.value <= w.now)
            && (forall e :: 0 <= e < j && w.jobs[e].state == JobQueued && w.jobs[e].attempts < w.jobs[e].maxAttempts ==>
                  w.jobs[e].deferredUntil.Some? && w.now < w.jobs[e].deferredUntil.value)
            && w'.jobs[j].state == JobRunning && w'.jobs[j].attempts == w.jobs[j].attempts + 1
            && w'.jobs[j].startedAt == Some(w.now) && w'.jobs[j].leaseExpiresAt == Some(w.now + w.cfg.leaseMs)
  {
    assert Enabled(states[i], events[i]);
    forall e | 0 <= e < FirstClaimable(states[i].jobs, states[i].now).value
      ensures !Claimable(states[i].jobs[e], states[i].now)
    {
    }
  }

  /**
   A reap returns exactly the jobs that were started a lease ago or longer: to the queue
   while attempts remain, otherwise as failed. The attempt stays spent.
   */
  lemma ReapReturnsTheLapsed(states: seq<World>, events: seq<Event>, i: nat, j: nat)
    requires Run(states, events) && i < |events| && events[i] == Env(Reap) && j < |states[i].jobs|
    ensures |states[i + 1].jobs| == |states[i].jobs|
    ensures var w, before, after := states[i], states[i].jobs[j], states[i + 1].jobs[j];
            if before.state == JobRunning && before.startedAt.Some?
              && before.startedAt.value + w.cfg.leaseMs <= w.now then
              && SameJob(before, after) && after.attempts == before.attempts && after.leaseExpiresAt.None?
              && after.state == if before.attempts < before.maxAttempts then JobQueued else JobFailed
            else after == before
  {
    RunLeased(states, events, i);
  }

  // ---------------------------------------------------------------- submissions

  /**
   A submission files a new job at the end, waiting, with the attempts asked for or
   three; a repeat changes nothing.
   */
  lemma SubmissionFilesAJob(states: seq<World>, events: seq<Event>, i: nat)
    requires Run(states, events) && i < |events| && events[i].Env? && events[i].env.Submit?
    ensures var w, w', input := states[i], states[i + 1], events[i].env.input;
            if exists j :: 0 <= j < |w.jobs| && JobKey(w.jobs[j]) == InputKey(input) then w'.jobs == w.jobs
            else
              && |w'.jobs| == |w.jobs| + 1 && w'.jobs[..|w.jobs|] == w.jobs
              && var job := w'.jobs[|w.jobs|];
              && job.organization == input.organization && job.kind == input.kind && job.key == input.key
              && job.payload == input.payload && job.state == JobQueued && job.attempts == 0
              && job.maxAttempts == (if input.maxAttempts.Some? then input.maxAttempts.value else 3)
              && job.createdAt == w.now && job.deferredUntil.None? && job.leaseExpiresAt.None?
  {
    assert Enabled(states[i], events[i]);
  }

  /** A request records the row its job will advance: pending, and nothing known of it yet. */
  lemma RequestRecordsARow(states: seq<World>, events: seq<Event>, i: nat)
    requires Run(states, events) && i < |events| && events[i].Env? && events[i].env.CreateRow?
    ensures var w, w', key, row := states[i], states[i + 1], events[i].env.key, events[i].env.row;
            && key !in w.rows && w'.rows == w.rows[key := row]
            && row.status == Pending && row.createdAt == w.now
            && row.url.None? && row.failureReason.None? && row.app.None? && row.handle.None? && row.build.None?
            && row.startedAt.None? && row.finishedAt.None?
  {
    assert Enabled(states[i], events[i]);
  }
}
