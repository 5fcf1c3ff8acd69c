/**
 How often a job can be claimed, and how each claim ends.

 A claim spends an attempt and a deferral returns it, so claims are attempts plus
 deferrals. Attempts are bounded by the budget. Deferrals are bounded by the clock:
 each looks at it at least one backoff after the one before, and none is made past
 the ceiling.
 */
module ProtocolClaims {
  import opened Contracts
  import opened Queue
  import opened Deployments
  import opened Protocol
  import opened ProtocolFrames
  import opened ProtocolBase

  /** `n` intervals of length `ms`. */
  function Intervals(n: nat, ms: nat): nat {
    if n == 0 then 0 else Intervals(n - 1, ms) + ms
  }

  lemma {:induction false} IntervalsIsProduct(n: nat, ms: nat)
    ensures Intervals(n, ms) == n * ms
  {
    if n > 0 {
      IntervalsIsProduct(n - 1, ms);
    }
  }

  /** Claims are attempts kept plus attempts returned, and every claim but a running one has ended. */
  predicate Counted(job: Job<Payload>, claims: nat, deferrals: nat, ends: nat) {
    && claims == job.attempts + deferrals
    && claims == ends + (if job.state == JobRunning then 1 else 0)
  }

  /** The next look at the clock comes no sooner than one backoff after the last. */
  predicate Gated(job: Job<Payload>, now: nat, checked: nat, backoffMs: nat) {
    || (job.state == JobQueued && job.deferredUntil.Some? && job.deferredUntil.value >= checked + backoffMs)
    || now >= checked + backoffMs
  }

  predicate Paced(job: Job<Payload>, now: nat, deferrals: nat, lastCheck: Option<nat>, cfg: Config) {
    && job.createdAt <= now
    && (deferrals > 0 ==>
          && lastCheck.Some?
          && job.createdAt + Intervals(deferrals - 1, cfg.pollBackoffMs)
             <= lastCheck.value < job.createdAt + cfg.pollCeilingMs
          && Gated(job, now, lastCheck.value, cfg.pollBackoffMs))
  }

  function LastCheck(ledger: Ledger, j: nat): Option<nat> {
    if j in ledger.lastCheck then Some(ledger.lastCheck[j]) else None
  }

  /** A deferral on its way to the queue has looked at the clock in time. */
  predicate CheckInTime(stage: Stage, job: Job<Payload>, now: nat, deferrals: nat, cfg: Config) {
    stage.Settling? && stage.write.DeferWrite? ==>
      job.createdAt + Intervals(deferrals, cfg.pollBackoffMs) <= stage.checkedAt < job.createdAt + cfg.pollCeilingMs
      && stage.checkedAt <= now
  }

  predicate JobPaced(w: World, j: nat)
    requires j < |w.jobs|
  {
    && Counted(w.jobs[j], w.ledger.claims[j], w.ledger.deferrals[j], w.ledger.ends[j])
    && Paced(w.jobs[j], w.now, w.ledger.deferrals[j], LastCheck(w.ledger, j), w.cfg)
    && (w.pc.Holding? && w.pc.job == j ==> CheckInTime(w.pc.stage, w.jobs[j], w.now, w.ledger.deferrals[j], w.cfg))
  }

  /** Only real jobs have been counted. */
  ghost predicate CountsReal(w: World) {
    && (forall j :: j in w.ledger.claims ==> j < |w.jobs|)
    && (forall j :: j in w.ledger.ends ==> j < |w.jobs|)
    && (forall j :: j in w.ledger.deferrals ==> j < |w.jobs|)
  }

  ghost predicate AllPaced(w: World) {
    CountsReal(w) && forall j :: 0 <= j < |w.jobs| ==> JobPaced(w, j)
  }

  /** Nothing a job's pace depends on has changed, except that time may have passed. */
  predicate SamePace(w: World, w': World, j: nat)
    requires j < |w.jobs| && j < |w'.jobs|
  {
    && w'.jobs[j] == w.jobs[j] && w'.now >= w.now && w'.cfg == w.cfg
    && w'.ledger.claims[j] == w.ledger.claims[j] && w'.ledger.ends[j] == w.ledger.ends[j]
    && w'.ledger.deferrals[j] == w.ledger.deferrals[j] && LastCheck(w'.ledger, j) == LastCheck(w.ledger, j)
  }

  // ---------------------------------------------------------------- steps

  lemma SubmitPaced(w: World, input: EnqueueInput<Payload>)
    requires Base(w) && AllPaced(w) && Submittable(w, input)
    ensures AllPaced(NextEnv(w, Submit(input)))
  {
    var w' := NextEnv(w, Submit(input));
    forall i | 0 <= i < |w'.jobs| ensures JobPaced(w', i) {
      if i < |w.jobs| {
        assert SamePace(w, w', i) && JobPaced(w, i);
      }
    }
  }

  lemma ReapPaced(w: World)
    requires Base(w) && AllPaced(w) && w.pc.Idle?
    ensures AllPaced(OnReap(w))
  {
    var w' := OnReap(w);
    forall i | 0 <= i < |w'.jobs| ensures JobPaced(w', i) {
      assert JobPaced(w, i) && w'.jobs[i] == ReapJob(w.jobs[i], w.now);
      assert multiset(Expiring(w))[i] == if Expired(w.jobs[i], w.now) then 1 else 0;
    }
  }

  lemma ClaimPaced(w: World)
    requires Base(w) && AllPaced(w) && EnvEnabled(w, Claim)
    ensures AllPaced(OnClaim(w))
  {
    var w' := OnClaim(w);
    var j := FirstClaimable(w.jobs, w.now).value;
    forall i | 0 <= i < |w'.jobs| ensures JobPaced(w', i) {
      assert JobPaced(w, i) && JobOk(w.jobs[i]);
      if i != j { assert SamePace(w, w', i); }
    }
  }

  lemma EnvPaced(w: World, e: EnvEvent)
    requires Base(w) && AllPaced(w) && EnvEnabled(w, e)
    ensures AllPaced(NextEnv(w, e))
  {
    match e
    case Submit(input) => SubmitPaced(w, input);
    case Reap => ReapPaced(w);
    case Claim => ClaimPaced(w);
    case _ =>
      var w' := NextEnv(w, e);
      forall i | 0 <= i < |w'.jobs| ensures JobPaced(w', i) {
        assert SamePace(w, w', i) && JobPaced(w, i);
      }
  }

  /** A step that leaves the queue, the clock and these counts alone. */
  predicate QuietStep(w: World, w': World) {
    && w'.jobs == w.jobs && w'.now == w.now && w'.cfg == w.cfg
    && w'.ledger.claims == w.ledger.claims && w'.ledger.ends == w.ledger.ends
    && w'.ledger.deferrals == w.ledger.deferrals && w'.ledger.lastCheck == w.ledger.lastCheck
  }

  lemma QuietPaced(w: World, w': World)
    requires AllPaced(w) && QuietStep(w, w')
    requires w'.pc.Holding? && w'.pc.job < |w.jobs| ==>
      CheckInTime(w'.pc.stage, w.jobs[w'.pc.job], w.now, w.ledger.deferrals[w'.pc.job], w.cfg)
    ensures AllPaced(w')
  {
    forall i | 0 <= i < |w'.jobs| ensures JobPaced(w', i) {
      assert JobPaced(w, i);
    }
  }

  lemma PrepareQuiet(w: World, e: PrepareEvent)
    requires PrepareEnabled(w, e)
    ensures QuietStep(w, NextPrepare(w, e))
    ensures NextPrepare(w, e).pc.Holding? && NextPrepare(w, e).pc.job == w.pc.job
    ensures NextPrepare(w, e).pc.stage.Settling? ==> !NextPrepare(w, e).pc.stage.write.DeferWrite?
  {
  }

  lemma ActionQuiet(w: World, answer: AdapterResult<ProviderRef>)
    requires AtAction(w)
    ensures QuietStep(w, OnActionAnswer(w, answer))
  {
  }

  lemma ActQuiet(w: World, e: ActEvent)
    requires ActEnabled(w, e)
    ensures QuietStep(w, NextAct(w, e))
  {
    match e
    case ActionAnswer(answer) => ActionQuiet(w, answer);
    case MarkHandle => assert QuietStep(w, OnMarkHandle(w));
    case StateAnswer(_, answer) => assert QuietStep(w, OnStateAnswer(w, answer));
    case ActionThrew(_) => assert QuietStep(w, Called(w));
    case ActionLost => assert QuietStep(w, Called(w));
    case Throw(_) =>
  }

  lemma ActDefersNothing(w: World, e: ActEvent)
    requires ActEnabled(w, e) && NextAct(w, e).pc.Holding?
    ensures NextAct(w, e).pc.job == w.pc.job
    ensures NextAct(w, e).pc.stage.Settling? ==> !NextAct(w, e).pc.stage.write.DeferWrite?
  {
  }

  lemma SweepQuiet(w: World, e: SweepEvent)
    requires SweepEnabled(w, e)
    ensures QuietStep(w, NextSweep(w, e)) && !NextSweep(w, e).pc.Holding?
  {
  }

  /** The ceiling and the gate together: a deferral is decided in time, one backoff after the last. */
  lemma DecidePaced(w: World)
    requires Base(w) && AllPaced(w) && AtStage(w) && w.pc.stage.Returned?
    ensures AllPaced(OnDecide(w))
  {
    assert JobPaced(w, w.pc.job);
    QuietPaced(w, OnDecide(w));
  }

  lemma WriteQueuePaced(w: World)
    requires Base(w) && AllPaced(w) && AtStage(w) && w.pc.stage.Settling?
    ensures AllPaced(OnWriteQueue(w))
  {
    var w' := OnWriteQueue(w);
    var j := w.pc.job;
    forall i | 0 <= i < |w'.jobs| ensures JobPaced(w', i) {
      assert JobPaced(w, i) && JobOk(w.jobs[i]);
      if i != j { assert SamePace(w, w', i); }
    }
  }

  lemma SettlePaced(w: World, e: SettleEvent)
    requires Base(w) && AllPaced(w) && SettleEnabled(w, e)
    ensures AllPaced(NextSettle(w, e))
  {
    match e
    case Decide => DecidePaced(w);
    case WriteQueue => WriteQueuePaced(w);
    case _ => QuietPaced(w, NextSettle(w, e));
  }

  lemma StepPaced(w: World, e: Event)
    requires Base(w) && AllPaced(w) && Enabled(w, e)
    ensures AllPaced(Next(w, e))
  {
    match e
    case Env(env) => EnvPaced(w, env);
    case Prepare(prepare) =>
      PrepareQuiet(w, prepare);
      QuietPaced(w, NextPrepare(w, prepare));
    case Act(act) =>
      ActQuiet(w, act);
      if NextAct(w, act).pc.Holding? { ActDefersNothing(w, act); }
      QuietPaced(w, NextAct(w, act));
    case Settled(settle) => SettlePaced(w, settle);
    case Swept(sweep) =>
      SweepQuiet(w, sweep);
      QuietPaced(w, NextSweep(w, sweep));
  }

  /** Whole intervals that start inside a window. */
  function CeilDiv(a: nat, b: nat): nat
    requires b > 0
  {
    (a + b - 1) / b
  }

  lemma StartsInWindow(n: nat, step: nat, window: nat)
    requires step > 0 && n > 0 && (n - 1) * step < window
    ensures n <= CeilDiv(window, step)
  {
    var q := CeilDiv(window, step);
    assert q * step + step > window + step - 1;
    SmallerFactor(n - 1, q, step);
  }

  lemma SmallerFactor(a: int, b: int, step: nat)
    requires a * step < b * step
    ensures a < b
  {
    if a >= b {
      LargerFactor(a, b, step);
    }
  }

  lemma LargerFactor(a: int, b: int, step: nat)
    requires a >= b
    ensures a * step >= b * step
  {
    assert (a - b) * step >= 0;
  }

  lemma PacedBound(w: World, j: nat)
    requires Base(w) && AllPaced(w) && j < |w.jobs| && w.cfg.pollBackoffMs > 0
    ensures w.ledger.claims[j] <= w.jobs[j].maxAttempts + CeilDiv(w.cfg.pollCeilingMs, w.cfg.pollBackoffMs)
  {
    assert JobPaced(w, j) && JobOk(w.jobs[j]);
    if w.ledger.deferrals[j] > 0 {
      IntervalsIsProduct(w.ledger.deferrals[j] - 1, w.cfg.pollBackoffMs);
      StartsInWindow(w.ledger.deferrals[j], w.cfg.pollBackoffMs, w.cfg.pollCeilingMs);
    }
  }

  // ---------------------------------------------------------------- finished jobs

  /** A finished job is never touched again: not its state, not its attempts, not its reason. */
  lemma FinishedStays(w: World, e: Event, j: nat)
    requires Base(w) && Enabled(w, e) && j < |w.jobs| && TerminalJob(w.jobs[j].state)
    ensures j < |Next(w, e).jobs| && Next(w, e).jobs[j] == w.jobs[j]
  {
    match e
    case Env(env) =>
    case Prepare(prepare) => PrepareQuiet(w, prepare);
    case Act(act) => ActQuiet(w, act);
    case Settled(settle) =>
    case Swept(sweep) => SweepQuiet(w, sweep);
  }

  // ---------------------------------------------------------------- calls never outrun claims

  /** The handler may still make its one call in this claim. */
  predicate BeforeCall(stage: Stage) {
    InHandler(stage) && !stage.Marking? && !stage.Reading?
  }

  predicate CallFits(w: World, j: nat) {
    w.ledger.calls[j] + (if AtStage(w) && w.pc.job == j && BeforeCall(w.pc.stage) then 1 else 0) <= w.ledger.claims[j]
  }

  ghost predicate CallsFit(w: World) {
    forall j: nat :: CallFits(w, j)
  }

  lemma EnvFits(w: World, e: EnvEvent)
    requires Base(w) && CallsFit(w) && EnvEnabled(w, e)
    ensures CallsFit(NextEnv(w, e))
  {
    forall j: nat ensures CallFits(NextEnv(w, e), j) { assert CallFits(w, j); }
  }

  lemma PrepareFits(w: World, e: PrepareEvent)
    requires CallsFit(w) && PrepareEnabled(w, e)
    ensures CallsFit(NextPrepare(w, e))
  {
    PrepareQuiet(w, e);
    PrepareCallsNothing(w, e);
    forall j: nat ensures CallFits(NextPrepare(w, e), j) { assert CallFits(w, j); }
  }

  lemma PrepareCallsNothing(w: World, e: PrepareEvent)
    requires PrepareEnabled(w, e)
    ensures NextPrepare(w, e).ledger.calls == w.ledger.calls && BeforeCall(w.pc.stage)
  {
  }

  /** A call is made from a stage before the call, and leaves the handler past it. */
  lemma ActCallsOnce(w: World, e: ActEvent)
    requires ActEnabled(w, e)
    ensures var w' := NextAct(w, e);
            && (w'.ledger.calls == w.ledger.calls
                || (BeforeCall(w.pc.stage) && w'.ledger.calls == w.ledger.calls + multiset{w.pc.job}))
            && (AtStage(w') ==> !BeforeCall(w'.pc.stage))
  {
    match e
    case ActionAnswer(answer) => assert OnActionAnswer(w, answer).ledger.calls == w.ledger.calls + multiset{w.pc.job};
    case _ =>
  }

  lemma ActFits(w: World, e: ActEvent)
    requires CallsFit(w) && ActEnabled(w, e)
    ensures CallsFit(NextAct(w, e))
  {
    ActQuiet(w, e);
    ActCallsOnce(w, e);
    forall j: nat ensures CallFits(NextAct(w, e), j) { assert CallFits(w, j); }
  }

  lemma SettleCallsNothing(w: World, e: SettleEvent)
    requires Base(w) && SettleEnabled(w, e)
    ensures var w' := NextSettle(w, e);
            && w'.ledger.calls == w.ledger.calls && w'.ledger.claims == w.ledger.claims
            && (AtStage(w') ==> !BeforeCall(w'.pc.stage))
  {
    if e.WriteRow? {
      if IsDeployment(w.jobs[w.pc.job]) { assert RowMatches(w.jobs[w.pc.job], w.rows); }
      WriteRowFrame(w);
    }
  }

  lemma SettleFits(w: World, e: SettleEvent)
    requires Base(w) && CallsFit(w) && SettleEnabled(w, e)
    ensures CallsFit(NextSettle(w, e))
  {
    SettleCallsNothing(w, e);
    forall j: nat ensures CallFits(NextSettle(w, e), j) { assert CallFits(w, j); }
  }

  lemma SweepFits(w: World, e: SweepEvent)
    requires CallsFit(w) && SweepEnabled(w, e)
    ensures CallsFit(NextSweep(w, e))
  {
    SweepQuiet(w, e);
    assert NextSweep(w, e).ledger.calls == w.ledger.calls;
    forall j: nat ensures CallFits(NextSweep(w, e), j) { assert CallFits(w, j); }
  }

  /** A claim makes at most one deploy or rollback call, whatever the engine does with it. */
  lemma StepFits(w: World, e: Event)
    requires Base(w) && CallsFit(w) && Enabled(w, e)
    ensures CallsFit(Next(w, e))
  {
    match e
    case Env(env) => EnvFits(w, env);
    case Prepare(prepare) => PrepareFits(w, prepare);
    case Act(act) => ActFits(w, act);
    case Settled(settle) => SettleFits(w, settle);
    case Swept(sweep) => SweepFits(w, sweep);
  }
}
