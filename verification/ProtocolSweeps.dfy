/**
 What the sweep does about a stranded row, told by what it asked and what the engine
 answered.
 */
module ProtocolSweeps {
  import opened Contracts
  import opened Deployments
  import opened Reconcile
  import opened Protocol
  import opened ProtocolBase
  import opened ProtocolRuns
  import opened ProtocolSteps

  /** The row is as old as the hard ceiling. */
  predicate TooOld(row: Row, at: nat, cfg: Config) {
    row.createdAt + cfg.hardCeilingMs <= at
  }

  /** This step settles this row, and changes no other. */
  predicate Settles(at: World, next: Event, after: World, key: Key) {
    && next == Swept(SweepWrite) && key in at.rows && key in after.rows && after.rows.Keys == at.rows.Keys
    && forall other :: other in at.rows && other != key ==> after.rows[other] == at.rows[other]
  }

  /**
   What comes after a row has been reached: the engine is asked about the run's own
   handle, or failing that about the application; with neither, the row is given up on,
   and only once it is too old.
   */
  predicate ReachedWell(row: Stranded, now: nat, cfg: Config, at: World, next: Event, after: World) {
    if row.row.handle.Some? && row.row.handle.value != "" then
      next.Swept? && next.sweep.SweepAnswer? && next.sweep.asked == ProviderRef(DeploymentRef, row.row.handle.value)
    else if row.row.app.Some? && row.row.app.value != "" then
      next.Swept? && next.sweep.SweepAnswer? && next.sweep.asked == ProviderRef(ApplicationRef, row.row.app.value)
    else
      TooOld(row.row, now, cfg) && Settles(at, next, after, row.key) && GivenUp(row.row, after.rows[row.key], now)
  }

  lemma WriteSettles(w: World)
    requires Base(w) && w.pc.Sweeping? && w.pc.visit.Writing? && w.pc.visit.decision.Settle?
    ensures var row, d := w.pc.visit.row, w.pc.visit.decision;
            && Settles(w, Swept(SweepWrite), OnSweepWrite(w), row.key) && w.rows[row.key] == row.row
            && OnSweepWrite(w).rows[row.key] == SettledRow(row.row, row.row, d, w.pc.at)
  {
    assert Unvisited(w.pc)[0] == w.pc.visit.row;
  }

  /** The sweep's place decides its next step. */
  lemma VisitAllows(at: World, next: Event)
    requires at.pc.Sweeping? && Enabled(at, next) && !next.Env?
    ensures next.Swept?
    ensures match at.pc.visit
            case Listing => next.sweep in {SweepSkip, SweepReach, SweepEnd}
            case Asking(_) => next.sweep.SweepAnswer? && Some(next.sweep.asked) == SweepRef(at.pc.visit.row.row)
            case Writing(_, _) => next.sweep == SweepWrite
            case PromotingRow(_) => next.sweep == SweepPromote
            case MeteringRow(_) => next.sweep == SweepMeter
  {
  }

  /** Between rows nothing is written. */
  lemma ListingMovesNothing(at: World, next: Event)
    requires next.Swept? && SweepEnabled(at, next.sweep) && next.sweep in {SweepSkip, SweepReach, SweepEnd}
    ensures var after := NextSweep(at, next.sweep);
            after.rows == at.rows && after.live == at.live && after.usage == at.usage
  {
  }

  /** Where the sweep stands once it has reached a row: at the question, or at the write that gives it up. */
  predicate Reached(row: Stranded, now: nat, cfg: Config, pc: Pc) {
    && pc.Sweeping? && pc.at == now
    && if Addressable(row.row) then pc.visit == Asking(row)
       else
         && pc.visit.Writing? && pc.visit.row == row && pc.visit.decision.Settle? && TooOld(row.row, now, cfg)
         && pc.visit.decision.status == Failed && pc.visit.decision.url.None? && pc.visit.decision.reason.Some?
  }

  lemma ReachStands(w: World)
    requires SweepEnabled(w, SweepReach)
    ensures Reached(w.pc.rest[0], w.pc.at, w.cfg, OnSweepReach(w).pc)
  {
  }

  lemma ReachedAfter(row: Stranded, now: nat, cfg: Config, at: World, next: Event)
    requires Base(at) && Reached(row, now, cfg, at.pc) && Enabled(at, next) && !next.Env?
    ensures ReachedWell(row, now, cfg, at, next, Next(at, next))
  {
    VisitAllows(at, next);
    if at.pc.visit.Writing? { WriteSettles(at); }
  }

  lemma RowsAreAskedAbout(states: seq<World>, events: seq<Event>, i: nat, k: nat)
    requires Run(states, events) && NextStep(events, i, k) && events[i] == Swept(SweepReach)
    ensures states[i].pc.Sweeping? && |states[i].pc.rest| > 0
    ensures ReachedWell(states[i].pc.rest[0], states[i].pc.at, states[i].cfg, states[k], events[k], states[k + 1])
  {
    StepThenKept(states, events, i, k);
    RunInvariant(states, events, k);
    ReachStands(states[i]);
    ReachedAfter(states[i].pc.rest[0], states[i].pc.at, states[i].cfg, states[k], events[k]);
  }

  /** A row is passed over without a question only when there is nothing to ask about and it is not yet too old. */
  lemma RowsArePassedOver(states: seq<World>, events: seq<Event>, i: nat)
    requires Run(states, events) && i < |events| && events[i] == Swept(SweepSkip)
    ensures states[i].pc.Sweeping? && |states[i].pc.rest| > 0 && states[i + 1].rows == states[i].rows
    ensures var row := states[i].pc.rest[0].row; !Addressable(row) && !TooOld(row, states[i].pc.at, states[i].cfg)
  {
    assert Enabled(states[i], events[i]);
  }

  /**
   What comes after the engine has answered about a row. A settled state is written as
   it is, and so is the news that there is no such build; anything else leaves the row
   for a later sweep until it is too old, and then fails it.
   */
  predicate HeardWell(row: Stranded, answer: AdapterResult<DeploymentState>, now: nat, cfg: Config,
                      at: World, next: Event, after: World) {
    if EngineEnded(answer) || TooOld(row.row, now, cfg)
    then Settles(at, next, after, row.key) && SettledBy(row.row, after.rows[row.key], answer, now)
    else next.Swept? && next.sweep in {SweepSkip, SweepReach, SweepEnd} && after.rows == at.rows
  }

  lemma HeardAfter(w: World, asked: ProviderRef, answer: AdapterResult<DeploymentState>, at: World, next: Event)
    requires Base(at) && SweepEnabled(w, SweepAnswer(asked, answer)) && Kept(OnSweepAnswer(w, asked, answer), at)
    requires Enabled(at, next) && !next.Env?
    ensures HeardWell(w.pc.visit.row, answer, w.pc.at, w.cfg, at, next, Next(at, next))
  {
    VisitAllows(at, next);
    if at.pc.visit.Listing? {
      ListingMovesNothing(at, next);
    } else {
      WriteSettles(at);
      DecisionHeeds(w.pc.visit.row.row, answer, w.pc.at, w.cfg.hardCeilingMs);
      SettledAsHeeded(w.pc.visit.row.row, at.pc.visit.decision, answer, w.pc.at);
    }
  }

  lemma AnswersAreHeeded(states: seq<World>, events: seq<Event>, i: nat, k: nat)
    requires Run(states, events) && NextStep(events, i, k) && events[i].Swept? && events[i].sweep.SweepAnswer?
    ensures states[i].pc.Sweeping? && states[i].pc.visit.Asking?
    ensures HeardWell(states[i].pc.visit.row, events[i].sweep.state, states[i].pc.at, states[i].cfg,
                      states[k], events[k], states[k + 1])
  {
    StepThenKept(states, events, i, k);
    RunInvariant(states, events, k);
    HeardAfter(states[i], events[i].sweep.asked, events[i].sweep.state, states[k], events[k]);
  }

  /** What comes after a row has been settled: what the applier does after one of its own. */
  predicate ConcludedWell(row: Stranded, won: bool, at: World, next: Event, after: World) {
    if !won then
      && next.Swept? && next.sweep in {SweepSkip, SweepReach, SweepEnd}
      && after.live == at.live && after.usage == at.usage
    else if row.row.kind == Production && !row.row.staged then
      after.live == at.live[row.row.project := row.key] && after.usage == at.usage
    else after.live == at.live && after.usage == at.usage + multiset{row.key}
  }

  lemma ConcludedAfter(w: World, at: World, next: Event)
    requires Base(w) && SweepEnabled(w, SweepWrite) && Kept(OnSweepWrite(w), at) && Enabled(at, next) && !next.Env?
    ensures var row := w.pc.visit.row;
            && row.key in OnSweepWrite(w).rows
            && ConcludedWell(row, OnSweepWrite(w).rows[row.key].status == Succeeded, at, next, Next(at, next))
  {
    WriteSettles(w);
    VisitAllows(at, next);
    if at.pc.visit.Listing? { ListingMovesNothing(at, next); }
  }

  lemma SettledSuccessGoesLiveAndIsCounted(states: seq<World>, events: seq<Event>, i: nat, k: nat)
    requires Run(states, events) && NextStep(events, i, k) && events[i] == Swept(SweepWrite)
    ensures states[i].pc.Sweeping? && states[i].pc.visit.Writing?
    ensures var row := states[i].pc.visit.row;
            && row.key in states[i + 1].rows
            && ConcludedWell(row, states[i + 1].rows[row.key].status == Succeeded, states[k], events[k], states[k + 1])
  {
    RunInvariant(states, events, i);
    StepThenKept(states, events, i, k);
    ConcludedAfter(states[i], states[k], events[k]);
  }

  /** And a row whose deployment went live is counted next. */
  lemma PromotedRowIsCounted(states: seq<World>, events: seq<Event>, i: nat, k: nat)
    requires Run(states, events) && NextStep(events, i, k) && events[i] == Swept(SweepPromote)
    ensures states[i].pc.Sweeping? && states[i].pc.visit.PromotingRow?
    ensures states[k + 1].usage == states[i].usage + multiset{states[i].pc.visit.row.key}
    ensures states[k + 1].live == states[i + 1].live
  {
    StepThenKept(states, events, i, k);
  }

  /** A sweep begins with the oldest stranded rows as they are at that moment, and ends when none is left to visit. */
  lemma SweepsListTheStranded(states: seq<World>, events: seq<Event>, i: nat)
    requires Run(states, events) && i < |events| && events[i].Swept? && events[i].sweep.SweepStart?
    ensures StrandedListing(states[i].rows, states[i].now, states[i].cfg.staleAfterMs, states[i].cfg.sweepLimit,
                            events[i].sweep.list)
    ensures forall k :: 0 <= k < |events[i].sweep.list| ==>
              var row := events[i].sweep.list[k].row;
              row.status in {Pending, Running} && row.createdAt + states[i].cfg.staleAfterMs < states[i].now
    ensures states[i].pc.Idle? && states[i + 1].pc == Sweeping(Listing, events[i].sweep.list, states[i].now)
  {
    assert Enabled(states[i], events[i]);
  }
}
