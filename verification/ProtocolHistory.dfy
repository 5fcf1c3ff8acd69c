/**
 What was heard, and when.

 The ledger's record of what the engine said of success is exactly what the answers of
 the run said. So a promise about the record is a promise about the answers, and a
 caller who knows the answers knows the record.
 */
module ProtocolHistory {
  import opened Contracts
  import opened Deployments
  import opened Protocol

  predicate InHeard(h: Heard, key: Key, said: Said) {
    match said
    case Silence => true
    case ReadRun => key in h.read
    case ReadElsewhere => key in h.elsewhere
    case Acceptance => key in h.accepted
    case Guess => key in h.guessed
    case Contradiction => key in h.contradicted
  }

  /** The engine says this of the deployment in this step. */
  predicate Tells(w: World, e: Event, key: Key, said: Said) {
    match e
    case Prepare(EnsureAnswer(answer)) => AtStage(w) && key == RowKey(w.jobs[w.pc.job]) && said == EnsureSays(answer)
    case Act(ActionAnswer(answer)) => AtStage(w) && key == RowKey(w.jobs[w.pc.job]) && said == ActionSays(answer)
    case Act(StateAnswer(_, answer)) =>
      && AtStage(w) && (w.pc.stage.Polling? || w.pc.stage.Reading?)
      && key == RowKey(w.jobs[w.pc.job]) && said == StateSays(w.pc.stage, answer)
    case Swept(SweepAnswer(asked, answer)) =>
      w.pc.Sweeping? && w.pc.visit.Asking? && key == w.pc.visit.row.key && said == SweepSays(asked, answer)
    case _ => false
  }

  lemma HearsOne(h: Heard, at: Key, now: Said, key: Key, said: Said)
    requires said != Silence
    ensures InHeard(Hears(h, at, now), key, said) <==> InHeard(h, key, said) || (key == at && said == now)
  {
  }

  lemma PrepareTells(w: World, e: PrepareEvent, key: Key, said: Said)
    requires PrepareEnabled(w, e) && said != Silence
    ensures InHeard(NextPrepare(w, e).ledger.heard, key, said)
       <==> InHeard(w.ledger.heard, key, said) || Tells(w, Prepare(e), key, said)
  {
    match e
    case EnsureAnswer(answer) =>
      HearsOne(w.ledger.heard, RowKey(w.jobs[w.pc.job]), EnsureSays(answer), key, said);
      assert answer.Err? ==>
        OnEnsureAnswer(w, answer).ledger.heard == Hears(w.ledger.heard, RowKey(w.jobs[w.pc.job]), EnsureSays(answer));
    case _ =>
  }

  lemma ActTells(w: World, e: ActEvent, key: Key, said: Said)
    requires ActEnabled(w, e) && said != Silence
    ensures InHeard(NextAct(w, e).ledger.heard, key, said)
       <==> InHeard(w.ledger.heard, key, said) || Tells(w, Act(e), key, said)
  {
    match e
    case ActionAnswer(answer) =>
      HearsOne(w.ledger.heard, RowKey(w.jobs[w.pc.job]), ActionSays(answer), key, said);
      assert OnActionAnswer(w, answer).ledger.heard
        == Hears(w.ledger.heard, RowKey(w.jobs[w.pc.job]), ActionSays(answer));
    case StateAnswer(_, answer) =>
      HearsOne(w.ledger.heard, RowKey(w.jobs[w.pc.job]), StateSays(w.pc.stage, answer), key, said);
      assert OnStateAnswer(w, answer).ledger.heard
        == Hears(w.ledger.heard, RowKey(w.jobs[w.pc.job]), StateSays(w.pc.stage, answer));
    case _ => assert NextAct(w, e).ledger.heard == w.ledger.heard;
  }

  lemma SettleTells(w: World, e: SettleEvent)
    requires SettleEnabled(w, e)
    ensures NextSettle(w, e).ledger.heard == w.ledger.heard
  {
  }

  lemma SweepTells(w: World, e: SweepEvent, key: Key, said: Said)
    requires SweepEnabled(w, e) && said != Silence
    ensures InHeard(NextSweep(w, e).ledger.heard, key, said)
       <==> InHeard(w.ledger.heard, key, said) || Tells(w, Swept(e), key, said)
  {
    match e
    case SweepAnswer(asked, answer) =>
      HearsOne(w.ledger.heard, w.pc.visit.row.key, SweepSays(asked, answer), key, said);
      assert OnSweepAnswer(w, asked, answer).ledger.heard
        == Hears(w.ledger.heard, w.pc.visit.row.key, SweepSays(asked, answer));
    case _ =>
  }

  lemma StepTells(w: World, e: Event, key: Key, said: Said)
    requires Enabled(w, e) && said != Silence
    ensures InHeard(Next(w, e).ledger.heard, key, said) <==>
              InHeard(w.ledger.heard, key, said) || Tells(w, e, key, said)
  {
    match e
    case Env(env) =>
    case Prepare(prepare) => PrepareTells(w, prepare, key, said);
    case Act(act) => ActTells(w, act, key, said);
    case Settled(settle) => SettleTells(w, settle);
    case Swept(sweep) => SweepTells(w, sweep, key, said);
  }

  /** The engine has said this of the deployment before the `n`th state. */
  ghost predicate ToldBefore(states: seq<World>, events: seq<Event>, n: nat, key: Key, said: Said)
    requires n <= |events| <= |states|
  {
    exists i :: 0 <= i < n && Tells(states[i], events[i], key, said)
  }

  /** The record is exact: it holds what some answer said, and nothing else. */
  lemma {:induction false} HeardExactly(states: seq<World>, events: seq<Event>, n: nat, key: Key, said: Said)
    requires Run(states, events) && n <= |events| && said != Silence
    ensures InHeard(states[n].ledger.heard, key, said) <==> ToldBefore(states, events, n, key, said)
  {
    if n > 0 {
      HeardExactly(states, events, n - 1, key, said);
      StepTells(states[n - 1], events[n - 1], key, said);
    }
  }

  // ---------------------------------------------------------------- what a caller can ask of the answers

  /** The engine's state was read as succeeded for the deployment. */
  ghost predicate WasRead(states: seq<World>, events: seq<Event>, key: Key)
    requires |events| <= |states|
  {
    ToldBefore(states, events, |events|, key, ReadRun) || ToldBefore(states, events, |events|, key, ReadElsewhere)
  }

  /** The event is no deploy or rollback call answered, as accepted, with the status succeeded. */
  predicate AcceptsPlainly(e: Event) {
    match e
    case Act(ActionAnswer(answer)) => answer.Ok? ==> answer.status != Succeeded
    case _ => true
  }

  /** The event is no ensure, action or poll refused with the status succeeded. */
  predicate RefusesPlainly(w: World, e: Event) {
    match e
    case Prepare(EnsureAnswer(answer)) => answer.Err? ==> answer.status != Succeeded
    case Act(ActionAnswer(answer)) => answer.Err? ==> answer.status != Succeeded
    case Act(StateAnswer(_, answer)) =>
      answer.Err? && w.pc.Holding? && w.pc.stage.Polling? ==> answer.status != Succeeded
    case _ => true
  }

  lemma AcceptanceTells(w: World, e: Event) returns (key: Key)
    requires Enabled(w, e) && !AcceptsPlainly(e)
    ensures Tells(w, e, key, Acceptance)
  {
    key := RowKey(w.jobs[w.pc.job]);
  }

  lemma PlainAcceptsNothing(w: World, e: Event, key: Key)
    requires Tells(w, e, key, Acceptance)
    ensures !AcceptsPlainly(e)
  {
  }

  lemma ContradictionTells(w: World, e: Event) returns (key: Key)
    requires Enabled(w, e) && !RefusesPlainly(w, e)
    ensures Tells(w, e, key, Contradiction)
  {
    key := RowKey(w.jobs[w.pc.job]);
  }

  /** An action was accepted as succeeded exactly when some answer said so. */
  lemma AcceptedExactly(states: seq<World>, events: seq<Event>)
    requires Run(states, events)
    ensures states[|events|].ledger.heard.accepted == {} <==>
              forall k :: 0 <= k < |events| ==> AcceptsPlainly(events[k])
  {
    var h := states[|events|].ledger.heard;
    if key :| key in h.accepted {
      HeardExactly(states, events, |events|, key, Acceptance);
      var i :| 0 <= i < |events| && Tells(states[i], events[i], key, Acceptance);
      PlainAcceptsNothing(states[i], events[i], key);
    }
    if i :| 0 <= i < |events| && !AcceptsPlainly(events[i]) {
      var key := AcceptanceTells(states[i], events[i]);
      HeardExactly(states, events, |events|, key, Acceptance);
    }
  }

  /** A refusal has carried the status succeeded exactly when some ensure, action or poll did. */
  lemma ContradictedExactly(states: seq<World>, events: seq<Event>)
    requires Run(states, events)
    ensures states[|events|].ledger.heard.contradicted == {}
       <==> forall k :: 0 <= k < |events| ==> RefusesPlainly(states[k], events[k])
  {
    var h := states[|events|].ledger.heard;
    if key :| key in h.contradicted {
      HeardExactly(states, events, |events|, key, Contradiction);
      var i :| 0 <= i < |events| && Tells(states[i], events[i], key, Contradiction);
      assert !RefusesPlainly(states[i], events[i]);
    }
    if i :| 0 <= i < |events| && !RefusesPlainly(states[i], events[i]) {
      var key := ContradictionTells(states[i], events[i]);
      HeardExactly(states, events, |events|, key, Contradiction);
    }
  }

  /**
   A success is read under another reference than the run's own handle in two places
   only: the sweep, of a row that has no handle, and the read-back of an action
   answered with another kind of reference.
   */
  lemma ReadElsewhereExactly(w: World, e: Event, key: Key)
    requires Enabled(w, e) && (Tells(w, e, key, ReadRun) || Tells(w, e, key, ReadElsewhere))
    ensures Tells(w, e, key, ReadElsewhere) <==>
              if e.Swept? then !Present(w.pc.visit.row.row.handle)
              else w.pc.stage.Reading? && w.pc.stage.ref.resourceType != DeploymentRef
  {
  }
}
