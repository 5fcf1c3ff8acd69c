/**
 Draining with the clock standing still: how many ticks find work.

 A tick takes the first claimable job and ends its claim. Each such tick uses up
 work that no later tick at the same moment can use again, so a drain runs dry.
 */
module Draining {
  import opened Contracts
  import opened Queue
  import opened Deployments
  import opened Protocol
  import opened ProtocolBase
  import opened ProtocolClaims
  import opened ProtocolFrames
  import opened ProtocolRuns

  /** The attempts a job can still be claimed for at this moment. */
  function Work(job: Job<Payload>, now: nat): nat {
    if Claimable(job, now) then job.maxAttempts - job.attempts else 0
  }

  function TotalWork(jobs: seq<Job<Payload>>, now: nat): nat {
    if |jobs| == 0 then 0 else TotalWork(jobs[..|jobs| - 1], now) + Work(jobs[|jobs| - 1], now)
  }

  /** One tick that claims a job and ends the claim with `write`, at one moment. */
  function Ticked(jobs: seq<Job<Payload>>, write: QueueWrite, now: nat, cfg: Config): seq<Job<Payload>>
    requires FirstClaimable(jobs, now).Some?
  {
    var i := FirstClaimable(jobs, now).value;
    jobs[i := QueueCall(TakeJob(jobs[i], now, cfg.leaseMs), write, now, cfg.pollBackoffMs)]
  }

  /** Each of these ticks, one after another at the same moment, found a job to claim. */
  predicate AllClaim(jobs: seq<Job<Payload>>, writes: seq<QueueWrite>, now: nat, cfg: Config)
    decreases |writes|
  {
    |writes| > 0 ==>
      FirstClaimable(jobs, now).Some? && AllClaim(Ticked(jobs, writes[0], now, cfg), writes[1..], now, cfg)
  }

  lemma {:induction false} WorkReplaced(jobs: seq<Job<Payload>>, i: nat, job: Job<Payload>, now: nat)
    requires i < |jobs|
    ensures TotalWork(jobs[i := job], now) == TotalWork(jobs, now) - Work(jobs[i], now) + Work(job, now)
  {
    var last := |jobs| - 1;
    if i == last {
      assert jobs[i := job][..last] == jobs[..last];
    } else {
      assert jobs[i := job][..last] == jobs[..last][i := job];
      WorkReplaced(jobs[..last], i, job, now);
    }
  }

  /** However a claim ends, the job it was of is claimable for fewer attempts at that moment, or no longer. */
  lemma ClaimUsesWork(job: Job<Payload>, write: QueueWrite, now: nat, cfg: Config)
    requires Claimable(job, now) && cfg.pollBackoffMs > 0
    ensures Work(QueueCall(TakeJob(job, now, cfg.leaseMs), write, now, cfg.pollBackoffMs), now) < Work(job, now)
  {
  }

  /** With a positive backoff, a drain at one moment is over after as many ticks as there was work. */
  lemma {:induction false} DrainRunsDry(jobs: seq<Job<Payload>>, writes: seq<QueueWrite>, now: nat, cfg: Config)
    requires AllClaim(jobs, writes, now, cfg) && cfg.pollBackoffMs > 0
    ensures |writes| <= TotalWork(jobs, now)
    decreases |writes|
  {
    if |writes| > 0 {
      var i := FirstClaimable(jobs, now).value;
      ClaimUsesWork(jobs[i], writes[0], now, cfg);
      WorkReplaced(jobs, i, QueueCall(TakeJob(jobs[i], now, cfg.leaseMs), writes[0], now, cfg.pollBackoffMs), now);
      DrainRunsDry(Ticked(jobs, writes[0], now, cfg), writes[1..], now, cfg);
    }
  }

  /** The backoff is what ends it: without one, a job that keeps deferring is claimed at the same moment for ever. */
  lemma {:induction false} WithoutBackoffItNeverEnds(jobs: seq<Job<Payload>>, now: nat, cfg: Config, n: nat)
    requires cfg.pollBackoffMs == 0 && FirstClaimable(jobs, now).Some?
    ensures exists writes :: |writes| == n && AllClaim(jobs, writes, now, cfg)
    decreases n
  {
    if n == 0 {
      assert AllClaim(jobs, [], now, cfg);
    } else {
      var i := FirstClaimable(jobs, now).value;
      var next := Ticked(jobs, DeferWrite(""), now, cfg);
      assert Claimable(next[i], now);
      WithoutBackoffItNeverEnds(next, now, cfg, n - 1);
      var writes :| |writes| == n - 1 && AllClaim(next, writes, now, cfg);
      assert ([DeferWrite("")] + writes)[1..] == writes;
      assert AllClaim(jobs, [DeferWrite("")] + writes, now, cfg);
    }
  }

  // ---------------------------------------------------------------- over a run

  /** The attempts a job may still be claimed for at this moment, counting one that is running and may be let go of. */
  function Left(job: Job<Payload>, now: nat): nat {
    if (job.state == JobRunning || Claimable(job, now)) && job.attempts < job.maxAttempts
    then job.maxAttempts - job.attempts else 0
  }

  function TotalLeft(jobs: seq<Job<Payload>>, now: nat): nat {
    if |jobs| == 0 then 0 else TotalLeft(jobs[..|jobs| - 1], now) + Left(jobs[|jobs| - 1], now)
  }

  lemma {:induction false} LeftReplaced(jobs: seq<Job<Payload>>, i: nat, job: Job<Payload>, now: nat)
    requires i < |jobs|
    ensures TotalLeft(jobs[i := job], now) == TotalLeft(jobs, now) - Left(jobs[i], now) + Left(job, now)
  {
    var last := |jobs| - 1;
    if i == last {
      assert jobs[i := job][..last] == jobs[..last];
    } else {
      assert jobs[i := job][..last] == jobs[..last][i := job];
      LeftReplaced(jobs[..last], i, job, now);
    }
  }

  /** A reap gives no attempt back. */
  lemma {:induction false} ReapLeavesLess(jobs: seq<Job<Payload>>, now: nat)
    ensures TotalLeft(ReapAll(jobs, now), now) <= TotalLeft(jobs, now)
  {
    if |jobs| > 0 {
      assert ReapAll(jobs, now)[..|jobs| - 1] == ReapAll(jobs[..|jobs| - 1], now);
      ReapLeavesLess(jobs[..|jobs| - 1], now);
    }
  }

  /** With no job running, what is left is the work there is. */
  lemma {:induction false} LeftIsWork(jobs: seq<Job<Payload>>, now: nat)
    requires forall j :: 0 <= j < |jobs| ==> jobs[j].state != JobRunning
    ensures TotalLeft(jobs, now) == TotalWork(jobs, now)
  {
    if |jobs| > 0 {
      LeftIsWork(jobs[..|jobs| - 1], now);
    }
  }

  /** The attempts an event asks for. */
  function Asked(e: Event): nat {
    match e
    case Env(Submit(input)) =>
      if input.maxAttempts.None? then DEFAULT_MAX_ATTEMPTS
      else if input.maxAttempts.value < 0 then 0 else input.maxAttempts.value
    case _ => 0
  }

  /** The attempts asked for between two states of a run. */
  function AllAsked(events: seq<Event>, a: nat, b: nat): nat
    requires a <= b <= |events|
  {
    if a == b then 0 else AllAsked(events, a, b - 1) + Asked(events[b - 1])
  }

  /** The claims between two states of a run. */
  function Claims(events: seq<Event>, a: nat, b: nat): nat
    requires a <= b <= |events|
  {
    if a == b then 0 else Claims(events, a, b - 1) + (if events[b - 1] == Env(Claim) then 1 else 0)
  }

  lemma EnvUsesLeft(w: World, e: EnvEvent)
    requires Base(w) && EnvEnabled(w, e) && NextEnv(w, e).now == w.now
    ensures TotalLeft(NextEnv(w, e).jobs, w.now) + (if e.Claim? then 1 else 0)
            <= TotalLeft(w.jobs, w.now) + Asked(Env(e))
  {
    match e
    case Submit(input) => assert (w.jobs + [NewJob(|w.jobs| + 1, input, w.now)])[..|w.jobs|] == w.jobs;
    case Reap => ReapLeavesLess(w.jobs, w.now);
    case Claim =>
      var i := FirstClaimable(w.jobs, w.now).value;
      LeftReplaced(w.jobs, i, TakeJob(w.jobs[i], w.now, w.cfg.leaseMs), w.now);
    case Crash => LetGoFrame(w);
    case _ =>
  }

  /** A deferral puts the job past this moment; any other end of a claim gives no attempt back. */
  lemma WriteQueueUsesLeft(w: World)
    requires Base(w) && AtStage(w) && w.pc.stage.Settling? && w.cfg.pollBackoffMs > 0
    ensures TotalLeft(OnWriteQueue(w).jobs, w.now) <= TotalLeft(w.jobs, w.now)
  {
    LeftReplaced(w.jobs, w.pc.job, QueueCall(w.jobs[w.pc.job], w.pc.stage.write, w.now, w.cfg.pollBackoffMs), w.now);
  }

  lemma SettleUsesLeft(w: World, e: SettleEvent)
    requires Base(w) && SettleEnabled(w, e) && w.cfg.pollBackoffMs > 0
    ensures TotalLeft(NextSettle(w, e).jobs, w.now) <= TotalLeft(w.jobs, w.now)
  {
    match e
    case WriteQueue => WriteQueueUsesLeft(w);
    case WriteRow =>
      if IsDeployment(w.jobs[w.pc.job]) { assert RowMatches(w.jobs[w.pc.job], w.rows); }
      WriteRowFrame(w);
    case _ =>
  }

  /** Every step that claims uses up an attempt, and only a submission brings new ones. */
  lemma StepUsesLeft(w: World, e: Event)
    requires Base(w) && Enabled(w, e) && Next(w, e).now == w.now && w.cfg.pollBackoffMs > 0
    ensures TotalLeft(Next(w, e).jobs, w.now) + (if e == Env(Claim) then 1 else 0)
            <= TotalLeft(w.jobs, w.now) + Asked(e)
  {
    match e
    case Env(env) => EnvUsesLeft(w, env);
    case Prepare(prepare) => PrepareQuiet(w, prepare);
    case Act(act) => ActQuiet(w, act);
    case Settled(settle) => SettleUsesLeft(w, settle);
    case Swept(sweep) => SweepQuiet(w, sweep);
  }

  lemma StepMovesOn(w: World, e: Event)
    requires Base(w) && Enabled(w, e)
    ensures Next(w, e).now >= w.now && Next(w, e).cfg == w.cfg
  {
    match e
    case Env(env) => if env.Crash? { LetGoFrame(w); }
    case Prepare(prepare) => PrepareQuiet(w, prepare);
    case Act(act) => ActQuiet(w, act);
    case Settled(settle) =>
      if settle.WriteRow? {
        if IsDeployment(w.jobs[w.pc.job]) { assert RowMatches(w.jobs[w.pc.job], w.rows); }
        WriteRowFrame(w);
      }
    case Swept(sweep) => SweepQuiet(w, sweep);
  }

  /** What a step does to the time and to the attempts left. */
  predicate Uses(w: World, e: Event, w': World) {
    && w.now <= w'.now && w'.cfg == w.cfg
    && (w'.now == w.now && w.cfg.pollBackoffMs > 0 ==>
          TotalLeft(w'.jobs, w.now) + (if e == Env(Claim) then 1 else 0) <= TotalLeft(w.jobs, w.now) + Asked(e))
  }

  ghost predicate AllUse(states: seq<World>, events: seq<Event>) {
    && |states| == |events| + 1
    && forall i :: 0 <= i < |events| ==> Uses(states[i], events[i], states[i + 1])
  }

  lemma RunUses(states: seq<World>, events: seq<Event>)
    requires Run(states, events)
    ensures AllUse(states, events)
  {
    forall i | 0 <= i < |events| ensures Uses(states[i], events[i], states[i + 1]) {
      RunInvariant(states, events, i);
      StepMovesOn(states[i], events[i]);
      if states[i + 1].now == states[i].now && states[i].cfg.pollBackoffMs > 0 {
        StepUsesLeft(states[i], events[i]);
      }
    }
  }

  lemma {:induction false} TimeMovesOn(states: seq<World>, events: seq<Event>, a: nat, b: nat)
    requires AllUse(states, events) && a <= b < |states|
    ensures states[a].now <= states[b].now && states[a].cfg == states[b].cfg
  {
    if a < b {
      TimeMovesOn(states, events, a, b - 1);
      assert Uses(states[b - 1], events[b - 1], states[b]);
    }
  }

  lemma {:induction false} UsesAddUp(states: seq<World>, events: seq<Event>, a: nat, b: nat)
    requires AllUse(states, events) && a <= b < |states| && states[a].now == states[b].now
    requires states[a].cfg.pollBackoffMs > 0
    ensures Claims(events, a, b) + TotalLeft(states[b].jobs, states[b].now)
         <= TotalLeft(states[a].jobs, states[a].now) + AllAsked(events, a, b)
  {
    if a < b {
      TimeMovesOn(states, events, a, b - 1);
      assert Uses(states[b - 1], events[b - 1], states[b]);
      UsesAddUp(states, events, a, b - 1);
    }
  }

  /**
   In any part of a run in which the clock stands still, with a positive backoff, the
   claims are at most the attempts left at its start and those asked for within it,
   whatever else the worker, the reaper, the sweep and the API do there.
   */
  lemma StandingClockRunsDry(states: seq<World>, events: seq<Event>, a: nat, b: nat)
    requires Run(states, events) && a <= b < |states| && states[a].now == states[b].now
    requires states[a].cfg.pollBackoffMs > 0
    ensures Claims(events, a, b) + TotalLeft(states[b].jobs, states[b].now)
         <= TotalLeft(states[a].jobs, states[a].now) + AllAsked(events, a, b)
  {
    RunUses(states, events);
    UsesAddUp(states, events, a, b);
  }

  /** So with no job running, and none asked for, the claims are at most the work there was. */
  lemma WorkBoundsTheDrain(states: seq<World>, events: seq<Event>, a: nat, b: nat)
    requires Run(states, events) && a <= b < |states| && states[a].now == states[b].now
    requires states[a].cfg.pollBackoffMs > 0
    requires forall j :: 0 <= j < |states[a].jobs| ==> states[a].jobs[j].state != JobRunning
    ensures Claims(events, a, b) <= TotalWork(states[a].jobs, states[a].now) + AllAsked(events, a, b)
  {
    StandingClockRunsDry(states, events, a, b);
    LeftIsWork(states[a].jobs, states[a].now);
  }
}
