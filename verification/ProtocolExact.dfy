/**
 When the simple promises hold.

 The protocol's promises carry terms for what can go wrong. Here is exactly when
 nothing does: conditions on the configuration and on what the engine answers, which
 can be checked before a run, each with runs that fail where it fails.
 */
module ProtocolExact {
  import opened Contracts
  import opened Queue
  import opened Deployments
  import opened Protocol
  import opened ProtocolFrames
  import opened ProtocolBase
  import opened ProtocolClaims
  import opened ProtocolHistory
  import opened ProtocolRuns
  import opened ProtocolRefusals
  import opened ProtocolScenes
  import opened ProtocolLimits
  import opened ProtocolWitnesses

  // ---------------------------------------------------------------- a sweep that may list nothing

  ghost predicate SettlesNothing(w: World) {
    w.cfg.sweepLimit == 0 ==>
      w.ledger.early == multiset{} && (w.pc.Sweeping? ==> w.pc.visit.Listing? && w.pc.rest == [])
  }

  lemma EnvSettlesNothing(w: World, e: EnvEvent)
    requires SettlesNothing(w) && EnvEnabled(w, e)
    ensures SettlesNothing(NextEnv(w, e))
  {
    if e.Crash? { LetGoFrame(w); }
  }

  lemma PrepareSettlesNothing(w: World, e: PrepareEvent)
    requires Base(w) && SettlesNothing(w) && PrepareEnabled(w, e)
    ensures SettlesNothing(NextPrepare(w, e))
  {
    if e.MarkBuild? {
      assert RowMatches(w.jobs[w.pc.job], w.rows);
      MarkBuildFrame(w);
    } else {
      PrepareFrame(w, e);
    }
  }

  lemma ActSettlesNothing(w: World, e: ActEvent)
    requires Base(w) && SettlesNothing(w) && ActEnabled(w, e)
    ensures SettlesNothing(NextAct(w, e))
  {
    if e.MarkHandle? {
      assert RowMatches(w.jobs[w.pc.job], w.rows);
      MarkHandleFrame(w);
    } else {
      ActFrame(w, e);
    }
  }

  lemma SettleSettlesNothing(w: World, e: SettleEvent)
    requires Base(w) && SettlesNothing(w) && SettleEnabled(w, e)
    ensures SettlesNothing(NextSettle(w, e))
  {
    if e.WriteRow? {
      if IsDeployment(w.jobs[w.pc.job]) { assert RowMatches(w.jobs[w.pc.job], w.rows); }
      WriteRowFrame(w);
    }
  }

  lemma SweepSettlesNothing(w: World, e: SweepEvent)
    requires SettlesNothing(w) && SweepEnabled(w, e)
    ensures SettlesNothing(NextSweep(w, e))
  {
    match e
    case SweepStart(list) =>
    case SweepEnd =>
    case _ => assert w.cfg.sweepLimit > 0 && NextSweep(w, e).cfg == w.cfg;
  }

  lemma {:induction false} RunSettlesNothing(states: seq<World>, events: seq<Event>, i: nat)
    requires Run(states, events) && i < |states|
    ensures SettlesNothing(states[i])
  {
    if i > 0 {
      RunSettlesNothing(states, events, i - 1);
      RunInvariant(states, events, i - 1);
      match events[i - 1]
      case Env(env) => EnvSettlesNothing(states[i - 1], env);
      case Prepare(prepare) => PrepareSettlesNothing(states[i - 1], prepare);
      case Act(act) => ActSettlesNothing(states[i - 1], act);
      case Settled(settle) => SettleSettlesNothing(states[i - 1], settle);
      case Swept(sweep) => SweepSettlesNothing(states[i - 1], sweep);
    }
  }

  // ---------------------------------------------------------------- the budget

  /** Every deploy and rollback call of the run was answered with one of these. */
  ghost predicate AnsweredFrom(events: seq<Event>, answers: iset<AdapterResult<ProviderRef>>) {
    forall i :: 0 <= i < |events| && events[i].Act? && events[i].act.ActionAnswer? ==> events[i].act.action in answers
  }

  /** A run with this configuration, against an engine with these answers. */
  ghost predicate RunAgainst(states: seq<World>, events: seq<Event>, cfg: Config,
                             answers: iset<AdapterResult<ProviderRef>>) {
    Run(states, events) && Last(states).cfg == cfg && AnsweredFrom(events, answers)
  }

  /** No deployment job has cost more deploy and rollback calls than its attempt budget. */
  ghost predicate KeepsBudget(w: World) {
    forall j :: 0 <= j < |w.jobs| && IsDeployment(w.jobs[j]) ==> w.ledger.calls[j] <= w.jobs[j].maxAttempts
  }

  /**
   What keeps the calls within the budget: no poll at all; or an engine that addresses
   its work, and either no sweep or no work accepted.
   */
  ghost predicate BudgetIsSafe(cfg: Config, answers: iset<AdapterResult<ProviderRef>>) {
    || cfg.pollCeilingMs == 0
    || ((forall a :: a in answers ==> Addressing(a)) && (cfg.sweepLimit == 0 || forall a :: a in answers ==> a.Err?))
  }

  lemma WithoutPollsBudgetIsKept(states: seq<World>, events: seq<Event>)
    requires Run(states, events) && Last(states).cfg.pollCeilingMs == 0
    ensures KeepsBudget(Last(states))
  {
    var w := Last(states);
    RunInvariant(states, events, |states| - 1);
    forall j | 0 <= j < |w.jobs| ensures w.ledger.calls[j] <= w.jobs[j].maxAttempts {
      CallsNeverOutrunClaims(states, events, j);
      assert JobPaced(w, j) && JobOk(w.jobs[j]);
    }
  }

  lemma WithoutSweepsBudgetIsKept(states: seq<World>, events: seq<Event>)
    requires Run(states, events) && Last(states).cfg.sweepLimit == 0 && AllAddress(events)
    ensures KeepsBudget(Last(states))
  {
    var w := Last(states);
    RunSettlesNothing(states, events, |states| - 1);
    forall j | 0 <= j < |w.jobs| && IsDeployment(w.jobs[j]) ensures w.ledger.calls[j] <= w.jobs[j].maxAttempts {
      BudgetBoundsCalls(states, events, j);
    }
  }

  lemma WithoutWorkBudgetIsKept(states: seq<World>, events: seq<Event>)
    requires Run(states, events) && forall k :: 0 <= k < |events| ==> Refuses(events[k])
    ensures KeepsBudget(Last(states))
  {
    var w := Last(states);
    forall j | 0 <= j < |w.jobs| && IsDeployment(w.jobs[j]) ensures w.ledger.calls[j] <= w.jobs[j].maxAttempts {
      RefusalsKeepTheBudget(states, events, j);
    }
  }

  lemma SafeBudgetIsKept(states: seq<World>, events: seq<Event>, cfg: Config, answers: iset<AdapterResult<ProviderRef>>)
    requires RunAgainst(states, events, cfg, answers) && BudgetIsSafe(cfg, answers)
    ensures KeepsBudget(Last(states))
  {
    if cfg.pollCeilingMs == 0 {
      WithoutPollsBudgetIsKept(states, events);
    } else if cfg.sweepLimit == 0 {
      WithoutSweepsBudgetIsKept(states, events);
    } else {
      WithoutWorkBudgetIsKept(states, events);
    }
  }

  /** Where the condition fails, some run breaks the budget. */
  lemma UnsafeBudgetIsBroken(cfg: Config, answers: iset<AdapterResult<ProviderRef>>)
    requires !BudgetIsSafe(cfg, answers)
    ensures exists states, events :: RunAgainst(states, events, cfg, answers) && !KeepsBudget(Last(states))
  {
    if a :| a in answers && !Addressing(a) {
      CallAfterRounds(cfg, a, false, 1);
      var states, events :| AnswersOnly(states, events, cfg, a) && Last(states).ledger.calls[0] == 2;
      assert RunAgainst(states, events, cfg, answers) && Last(states).jobs[0].maxAttempts == 1;
    } else {
      var a :| a in answers && a.Ok?;
      SettledRowIsDeployedAgain(cfg, a);
      var states, events :| DeployedTwice(states, events, cfg, a, 1);
      assert RunAgainst(states, events, cfg, answers) && Last(states).jobs[0].maxAttempts == 1;
    }
  }

  /**
   The exact condition, for every configuration and every engine: the budget bounds the
   calls of every run if and only if jobs are never polled, or the engine addresses its
   work and either the sweep may list no row or the engine accepts nothing.
   */
  lemma BudgetKeptExactly(cfg: Config, answers: iset<AdapterResult<ProviderRef>>)
    ensures (forall states, events :: RunAgainst(states, events, cfg, answers) ==> KeepsBudget(Last(states)))
       <==> BudgetIsSafe(cfg, answers)
  {
    if BudgetIsSafe(cfg, answers) {
      forall states, events | RunAgainst(states, events, cfg, answers) ensures KeepsBudget(Last(states)) {
        SafeBudgetIsKept(states, events, cfg, answers);
      }
    } else {
      UnsafeBudgetIsBroken(cfg, answers);
    }
  }

  /** For the engines the executor is written for, and for any engine at all, it is a matter of the configuration. */
  lemma BudgetKeptByConfiguration(cfg: Config)
    ensures (forall states, events ::
               Run(states, events) && AllAddress(events) && Last(states).cfg == cfg ==> KeepsBudget(Last(states)))
       <==> cfg.pollCeilingMs == 0 || cfg.sweepLimit == 0
    ensures (forall states, events :: Run(states, events) && Last(states).cfg == cfg ==> KeepsBudget(Last(states)))
       <==> cfg.pollCeilingMs == 0
  {
    var addressing := iset a: AdapterResult<ProviderRef> | Addressing(a);
    BudgetKeptExactly(cfg, addressing);
    assert Ok(Running, EngineRun("")) in addressing;
    forall states, events ensures RunAgainst(states, events, cfg, addressing)
                             <==> Run(states, events) && AllAddress(events) && Last(states).cfg == cfg
    {
    }
    var all := iset a: AdapterResult<ProviderRef> | a.Ok? || a.Err?;
    BudgetKeptExactly(cfg, all);
    assert Err(Running, "") in all && !Addressing(Err(Running, ""));
    forall states, events ensures RunAgainst(states, events, cfg, all)
                             <==> Run(states, events) && Last(states).cfg == cfg
    {
    }
  }

  // ---------------------------------------------------------------- usage

  /** No deployment has been counted twice. */
  ghost predicate CountsOnce(w: World) {
    forall key :: w.usage[key] <= 1
  }

  lemma WithoutSweepsCountsOnce(states: seq<World>, events: seq<Event>)
    requires Run(states, events) && Last(states).cfg.sweepLimit == 0
    ensures CountsOnce(Last(states))
  {
    RunSettlesNothing(states, events, |states| - 1);
    forall key ensures Last(states).usage[key] <= 1 {
      UsageIsCountedOnce(states, events, key);
    }
  }

  /**
   Against any engine that accepts work and addresses it, and so against any engine at
   all: each deployment costs at most one unit of usage in every run if and only if the
   sweep may list no row.
   */
  lemma UsageCountedOnceExactly(cfg: Config, answer: AdapterResult<ProviderRef>)
    requires Starts(answer)
    ensures (forall states, events :: Run(states, events) && Last(states).cfg == cfg ==> CountsOnce(Last(states)))
       <==> cfg.sweepLimit == 0
    ensures (forall states, events ::
               Run(states, events) && AllAnswer(events, answer) && Last(states).cfg == cfg ==> CountsOnce(Last(states)))
       <==> cfg.sweepLimit == 0
  {
    if cfg.sweepLimit == 0 {
      forall states, events | Run(states, events) && Last(states).cfg == cfg ensures CountsOnce(Last(states)) {
        WithoutSweepsCountsOnce(states, events);
      }
    } else {
      SettledRowIsBilledAgain(cfg, answer);
      var states, events :| DeployedTwice(states, events, cfg, answer, 2);
      assert Last(states).usage[DEPLOYMENT] == 2;
    }
  }

  // ---------------------------------------------------------------- success

  /** Every succeeded job's deployment had its state read as succeeded. */
  ghost predicate JobsWereRead(states: seq<World>, events: seq<Event>)
    requires 0 < |states| && |events| <= |states|
  {
    forall j :: 0 <= j < |Last(states).jobs| && Last(states).jobs[j].state == JobSucceeded ==>
                  WasRead(states, events, RowKey(Last(states).jobs[j]))
  }

  /**
   The exact condition on an engine's answers: in every run the success of a job was
   read if and only if no deploy or rollback is ever accepted as already succeeded.
   */
  lemma SuccessReadExactly(cfg: Config, answers: iset<AdapterResult<ProviderRef>>)
    ensures (forall states, events :: RunAgainst(states, events, cfg, answers) ==> JobsWereRead(states, events))
       <==> (forall a :: a in answers && a.Ok? ==> a.status != Succeeded)
  {
    if a :| a in answers && a.Ok? && a.status == Succeeded {
      SuccessCanBeGuessed(cfg, a.value, false);
      var states, events :| SucceededUnread(states, events) && Last(states).cfg == cfg
                         && AllAnswer(events, Ok(Succeeded, a.value));
      assert RunAgainst(states, events, cfg, answers) && !JobsWereRead(states, events);
    } else {
      forall states, events | RunAgainst(states, events, cfg, answers) ensures JobsWereRead(states, events) {
        assert forall k :: 0 <= k < |events| ==> AcceptsPlainly(events[k]);
        SuccessWasRead(states, events);
      }
    }
  }
}
