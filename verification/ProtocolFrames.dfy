/** What the handler's steps leave alone. */
module ProtocolFrames {
  import opened Contracts
  import opened Deployments
  import opened Protocol

  /** Neither the clock, the queue, the pointer nor the usage has moved. */
  predicate SameOutside(w: World, w': World) {
    w'.cfg == w.cfg && w'.now == w.now && w'.jobs == w.jobs && w'.live == w.live && w'.usage == w.usage
  }

  /** The rows differ at most in this one. */
  predicate OtherRowsSame(rows: map<Key, Row>, rows': map<Key, Row>, key: Key) {
    forall k :: k in rows.Keys + rows'.Keys && k != key ==> k in rows && k in rows' && rows'[k] == rows[k]
  }

  /** Nothing that counts claims or settlements has moved. */
  predicate SameClaims(a: Ledger, b: Ledger) {
    && b.claims == a.claims && b.ends == a.ends && b.deferrals == a.deferrals && b.lastCheck == a.lastCheck
    && b.unaddressed == a.unaddressed && b.settled == a.settled && b.early == a.early
  }

  predicate HeardMore(a: Heard, b: Heard) {
    && a.read <= b.read && a.elsewhere <= b.elsewhere && a.accepted <= b.accepted && a.guessed <= b.guessed
    && a.contradicted <= b.contradicted
  }

  /** The engine has said no less than before, and nothing new has been recorded. */
  predicate SaidMore(a: Ledger, b: Ledger) {
    HeardMore(a.heard, b.heard) && b.recorded == a.recorded
  }

  /** The worker is still on the same job, at a stage of its handler or with a failure to report. */
  predicate StaysOn(w: World, w': World) {
    && w.pc.Holding? && w'.pc.Holding? && w'.pc.job == w.pc.job && !w'.pc.stage.Started?
    && (w'.pc.stage.Settling? ==> w'.pc.stage.write.FailWrite? || w'.pc.stage.write.TerminateWrite?)
  }

  predicate HandlerStep(w: World, w': World) {
    SameOutside(w, w') && SameClaims(w.ledger, w'.ledger) && SaidMore(w.ledger, w'.ledger)
  }

  lemma EnsureFrame(w: World, answer: AdapterResult<ProviderRef>)
    requires AtStage(w) && w.pc.stage.Ensuring?
    ensures HandlerStep(w, OnEnsureAnswer(w, answer)) && StaysOn(w, OnEnsureAnswer(w, answer))
    ensures OnEnsureAnswer(w, answer).rows == w.rows
  {
  }

  lemma BindFrame(w: World)
    requires AtStage(w) && w.pc.stage.Recording?
    ensures HandlerStep(w, OnBindSlot(w)) && StaysOn(w, OnBindSlot(w)) && OnBindSlot(w).rows == w.rows
  {
  }

  /** Every preparing step but the builder's handle leaves the rows alone too. */
  lemma PrepareFrame(w: World, e: PrepareEvent)
    requires PrepareEnabled(w, e) && !e.MarkBuild?
    ensures HandlerStep(w, NextPrepare(w, e)) && StaysOn(w, NextPrepare(w, e))
    ensures NextPrepare(w, e).rows == w.rows
  {
    match e
    case EnsureAnswer(answer) => EnsureFrame(w, answer);
    case BindSlot => BindFrame(w);
    case _ =>
  }

  lemma MarkBuildFrame(w: World)
    requires AtStage(w) && w.pc.stage.MarkingBuild? && RowKey(w.jobs[w.pc.job]) in w.rows
    ensures var w' := OnMarkBuild(w);
            && SameOutside(w, w') && SameClaims(w.ledger, w'.ledger) && SaidMore(w.ledger, w'.ledger) && StaysOn(w, w')
            && w'.rows == w.rows[RowKey(w.jobs[w.pc.job]) :=
                                 MarkRowBuild(w.rows[RowKey(w.jobs[w.pc.job])], w.pc.stage.build)]
  {
  }

  lemma ActionFrame(w: World, answer: AdapterResult<ProviderRef>)
    requires AtAction(w)
    ensures HandlerStep(w, OnActionAnswer(w, answer)) && StaysOn(w, OnActionAnswer(w, answer))
    ensures OnActionAnswer(w, answer).rows == w.rows
    ensures OnActionAnswer(w, answer).ledger.calls == w.ledger.calls + multiset{w.pc.job}
  {
  }

  lemma StateFrame(w: World, answer: AdapterResult<DeploymentState>)
    requires AtStage(w) && (w.pc.stage.Polling? || w.pc.stage.Reading?)
    ensures HandlerStep(w, OnStateAnswer(w, answer)) && StaysOn(w, OnStateAnswer(w, answer))
    ensures OnStateAnswer(w, answer).rows == w.rows && OnStateAnswer(w, answer).ledger.calls == w.ledger.calls
  {
  }

  /** Every acting step but the engine's handle leaves the rows alone, and adds at most one call. */
  lemma ActFrame(w: World, e: ActEvent)
    requires ActEnabled(w, e) && !e.MarkHandle?
    ensures HandlerStep(w, NextAct(w, e)) && NextAct(w, e).rows == w.rows
    ensures NextAct(w, e).pc.Idle? || StaysOn(w, NextAct(w, e))
    ensures NextAct(w, e).ledger.calls == w.ledger.calls
            || NextAct(w, e).ledger.calls == w.ledger.calls + multiset{w.pc.job}
  {
    match e
    case ActionAnswer(answer) => ActionFrame(w, answer);
    case StateAnswer(_, answer) => StateFrame(w, answer);
    case _ =>
  }

  lemma MarkHandleFrame(w: World)
    requires AtStage(w) && w.pc.stage.Marking? && RowKey(w.jobs[w.pc.job]) in w.rows
    ensures var w', at := OnMarkHandle(w), w.pc.stage;
            && SameOutside(w, w') && SameClaims(w.ledger, w'.ledger) && w'.ledger.calls == w.ledger.calls
            && w'.ledger.heard == w.ledger.heard
            && w'.pc == Holding(w.pc.job, Reading(at.accepted, at.resolved, at.ref, at.buildRef))
            && w'.rows == w.rows[RowKey(w.jobs[w.pc.job]) :=
                                 MarkRow(w.rows[RowKey(w.jobs[w.pc.job])], at.accepted, Some(at.resolved),
                                         HandleOf(at.ref))]
  {
  }

  /** Only the rows, where the worker is, and what is on record of them have moved. */
  predicate RowStep(w: World, w': World) {
    && SameOutside(w, w') && w'.slots == w.slots
    && w'.ledger == w.ledger.(unaddressed := w'.ledger.unaddressed, recorded := w'.ledger.recorded)
    && (w'.ledger.unaddressed == w.ledger.unaddressed
        || (w.pc.Mirroring? && w'.ledger.unaddressed == w.ledger.unaddressed + multiset{w.pc.job}))
  }

  lemma LetGoFrame(w: World)
    ensures RowStep(w, LetGo(w)) && LetGo(w).rows == w.rows && LetGo(w).pc.Idle?
    ensures LetGo(w).ledger.recorded == w.ledger.recorded
  {
  }

  lemma WriteRowFrame(w: World)
    requires AtMirror(w) && w.pc.mirror.Applying?
    requires IsDeployment(w.jobs[w.pc.job]) ==> RowKey(w.jobs[w.pc.job]) in w.rows
    ensures RowStep(w, OnWriteRow(w))
    ensures var job, result := w.jobs[w.pc.job], w.pc.mirror.result;
            if !IsDeployment(job) then OnWriteRow(w).rows == w.rows && OnWriteRow(w).pc.Idle?
            else
              && OnWriteRow(w).rows == w.rows[RowKey(job) := ApplyToRow(w.rows[RowKey(job)], result, w.now)]
              && OnWriteRow(w).pc == AfterRow(w.pc.job, job.payload, result)
  {
    var job := w.jobs[w.pc.job];
    if IsDeployment(job) {
      var written := WithRow(w, RowKey(job), ApplyToRow(w.rows[RowKey(job)], w.pc.mirror.result, w.now));
      LetGoFrame(written);
    } else {
      LetGoFrame(w);
    }
  }
}
