/** What stays put between two of the worker's own steps. */
module ProtocolSteps {
  import opened Protocol

  /** Between these states only the clock and the API have moved: the worker has neither stepped nor died. */
  ghost predicate Quiet(events: seq<Event>, i: nat, k: nat)
    requires i <= k <= |events|
  {
    forall m :: i <= m < k ==> events[m].Env? && !events[m].env.Crash?
  }

  /** The next step of the worker's after the one at `i` is the one at `k`. */
  ghost predicate NextStep(events: seq<Event>, i: nat, k: nat) {
    i < k < |events| && Quiet(events, i + 1, k) && !events[k].Env?
  }

  /** Time may have passed and new rows and jobs been recorded; nothing else has changed. */
  predicate Kept(w: World, w': World) {
    && w'.cfg == w.cfg && w'.pc == w.pc && w'.slots == w.slots && w'.live == w.live && w'.usage == w.usage
    && w'.ledger == w.ledger && w.now <= w'.now
    && |w.jobs| <= |w'.jobs| && (forall j :: 0 <= j < |w.jobs| ==> w'.jobs[j] == w.jobs[j])
    && (forall k :: k in w.rows ==> k in w'.rows && w'.rows[k] == w.rows[k])
  }

  lemma EnvKept(w: World, e: EnvEvent)
    requires EnvEnabled(w, e) && !w.pc.Idle? && !e.Crash?
    ensures Kept(w, NextEnv(w, e))
  {
  }

  lemma {:induction false} QuietKeeps(states: seq<World>, events: seq<Event>, i: nat, k: nat)
    requires Run(states, events) && i <= k <= |events| && Quiet(events, i, k) && !states[i].pc.Idle?
    ensures Kept(states[i], states[k])
  {
    if i < k {
      QuietKeeps(states, events, i, k - 1);
      assert Enabled(states[k - 1], events[k - 1]);
      EnvKept(states[k - 1], events[k - 1].env);
    }
  }

  /** The worker's step at `i`, and the state its next one is taken in. */
  lemma StepThenKept(states: seq<World>, events: seq<Event>, i: nat, k: nat)
    requires Run(states, events) && NextStep(events, i, k)
    requires Enabled(states[i], events[i]) ==> !Next(states[i], events[i]).pc.Idle?
    ensures Enabled(states[i], events[i]) && Kept(Next(states[i], events[i]), states[k])
    ensures Enabled(states[k], events[k]) && states[k + 1] == Next(states[k], events[k])
  {
    QuietKeeps(states, events, i + 1, k);
  }
}
