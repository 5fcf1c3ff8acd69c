/**
 Deployments: what a job asks for, the row it advances, and the decisions the
 worker takes from an engine's answer.
 */
module Deployments {
  import opened Contracts

  /** A project or deployment id together with the organization every write is scoped to. */
  datatype Key = Key(organization: string, id: string)

  datatype DeployKind = Production | Preview

  datatype Action = Create | Rollback

  datatype Payload = Payload(
    organization: string,
    deploymentId: string,
    projectId: string,
    action: Action,
    kind: DeployKind,
    staged: bool,
    previewKey: Option<string>,
    commit: Option<string>,
    repository: Option<string>)

  function DeploymentOf(p: Payload): Key {
    Key(p.organization, p.deploymentId)
  }

  function ProjectOf(p: Payload): Key {
    Key(p.organization, p.projectId)
  }

  // ---------------------------------------------------------------- application slots

  /** Where an engine application is remembered: the project's own, or one per preview key. */
  datatype Slot = ProductionSlot(project: Key) | PreviewSlot(project: Key, previewKey: string)

  predicate IsPreview(p: Payload) {
    p.kind == Preview && p.previewKey.Some?
  }

  function SlotOf(p: Payload): Slot {
    if IsPreview(p) then PreviewSlot(ProjectOf(p), p.previewKey.value) else ProductionSlot(ProjectOf(p))
  }

  /** The application a slot holds. */
  function BoundTo(slots: map<Slot, string>, slot: Slot): Option<string> {
    if slot in slots && slots[slot] != "" then Some(slots[slot]) else None
  }

  // ---------------------------------------------------------------- engine answers

  datatype ResourceType = ApplicationRef | DeploymentRef | FunctionRef

  datatype ProviderRef = ProviderRef(resourceType: ResourceType, id: string)

  datatype DeploymentState = DeploymentState(status: EngineStatus, url: Option<string>, reason: Option<string>)

  /** What the executor reports about one run. */
  datatype ExecutionResult = ExecutionResult(
    status: EngineStatus,
    url: Option<string>,
    app: Option<string>,
    handle: Option<string>,
    build: Option<string>,
    reason: Option<string>)

  /** What a rollback without an application or a commit reports. */
  const NOTHING_TO_ROLL_BACK: string :=
    "This project has no application on the hosting engine yet, so there is nothing to roll back."

  function StatusText(status: EngineStatus): string {
    match status
    case Pending => "pending"
    case Running => "running"
    case Succeeded => "succeeded"
    case Failed => "failed"
    case Degraded => "degraded"
    case NotConfigured => "not_configured"
  }

  /** The deployment handle a provider reference carries: only a deployment reference is one. */
  function HandleOf(ref: ProviderRef): Option<string> {
    if ref.resourceType == DeploymentRef then Some(ref.id) else None
  }

  /** The result of polling a build that is already in flight. */
  function PolledResult(answer: AdapterResult<DeploymentState>, app: Option<string>, handle: string): ExecutionResult {
    match answer
    case Err(status, reason) => ExecutionResult(status, None, app, Some(handle), None, Some(reason))
    case Ok(_, state) => ExecutionResult(state.status, state.url, app, Some(handle), None, state.reason)
  }

  /** The result of reading the engine's state back after an accepted action. */
  function ReadBackResult(answer: AdapterResult<DeploymentState>, accepted: EngineStatus, app: string, ref: ProviderRef,
                          build: Option<string>): ExecutionResult {
    match answer
    case Err(_, _) => ExecutionResult(accepted, None, Some(app), HandleOf(ref), build, None)
    case Ok(_, state) =>
      ExecutionResult(state.status, state.url, Some(app), HandleOf(ref), build,
                      if state.status == Succeeded || InFlight(state.status) then None else state.reason)
  }

  // ---------------------------------------------------------------- outcome of a run

  /** What the job handler hands the processor. */
  function HandlerOutcome(x: ExecutionResult): AdapterResult<ExecutionResult> {
    if x.reason.None? && (x.status == Succeeded || InFlight(x.status)) then Ok(x.status, x)
    else Err(x.status, if x.reason.Some? then x.reason.value else "Deployment ended " + StatusText(x.status) + ".")
  }

  /** The queue call that ends a claim. */
  datatype QueueWrite =
    | CompleteWrite
    | FailWrite(reason: string)
    | TerminateWrite(reason: string)
    | DeferWrite(reason: string)

  datatype Settlement = Settlement(write: QueueWrite, result: AdapterResult<ExecutionResult>)

  function CeilingReason(status: EngineStatus): string {
    "The engine still reports this build " + StatusText(status) + " past the ceiling; it is not being worked on."
  }

  /** How the processor ends a claim: what it tells the queue, and what it hands the applier. */
  function Classify(outcome: AdapterResult<ExecutionResult>, createdAt: nat, now: nat, ceilingMs: nat): Settlement {
    if outcome.Ok? && outcome.status == Succeeded then Settlement(CompleteWrite, outcome)
    else
      var reason := if outcome.Ok? then "Adapter returned " + StatusText(outcome.status) + "." else outcome.reason;
      if InFlight(outcome.status) then
        if now - createdAt >= ceilingMs
        then Settlement(TerminateWrite(CeilingReason(outcome.status)),
                        Err(outcome.status, CeilingReason(outcome.status)))
        else Settlement(DeferWrite(reason), outcome)
      else if outcome.status == NotConfigured || outcome.status == Degraded
      then Settlement(TerminateWrite(reason), outcome)
      else Settlement(FailWrite(reason), outcome)
  }

  // ---------------------------------------------------------------- the deployment row

  datatype Row = Row(
    project: Key,
    kind: DeployKind,
    staged: bool,
    createdAt: nat,
    status: EngineStatus,
    url: Option<string>,
    failureReason: Option<string>,
    app: Option<string>,
    handle: Option<string>,
    build: Option<string>,
    startedAt: Option<nat>,
    finishedAt: Option<nat>)

  /** The row the API writes before it enqueues the job. */
  function NewRow(project: Key, kind: DeployKind, staged: bool, now: nat): Row {
    Row(project, kind, staged, now, Pending, None, None, None, None, None, None, None)
  }

  /** The row records a build the engine has accepted and not settled. */
  predicate RowInFlight(row: Row) {
    InFlight(row.status) && row.handle.Some?
  }

  /** The write made the moment the engine issues its handle. Handles are set or left, never cleared. */
  function MarkRow(row: Row, status: EngineStatus, app: Option<string>, handle: Option<string>): Row {
    row.(status := status, app := OrElse(app, row.app), handle := OrElse(handle, row.handle))
  }

  /** The write made when the builder accepts a build. It sets `running`, whatever the row said before. */
  function MarkRowBuild(row: Row, build: string): Row {
    row.(status := Running, build := Some(build))
  }

  /**
   Recording a build handle leaves the status alone exactly on a row that is running
   already, and makes any row that has an engine handle one that the next claim polls.
   */
  lemma BuildHandleKeepsOnlyRunning(row: Row, build: string)
    ensures MarkRowBuild(row, build).status == row.status <==> row.status == Running
    ensures RowInFlight(MarkRowBuild(row, build)) <==> row.handle.Some?
  {
  }

  /** The row shows this outcome, finished exactly when the status is a settled one, and was asked for as before. */
  predicate Written(before: Row, after: Row, status: EngineStatus, url: Option<string>, reason: Option<string>,
                    at: nat) {
    && after.project == before.project && after.kind == before.kind && after.staged == before.staged
    && after.createdAt == before.createdAt
    && after.status == status && after.url == url && after.failureReason == reason && after.startedAt == Some(at)
    && after.finishedAt == if status in {Pending, Running} then None else Some(at)
  }

  /** A settled outcome mirrored onto the row. */
  function SettleRow(row: Row, status: EngineStatus, url: Option<string>, reason: Option<string>,
                     app: Option<string>, handle: Option<string>, build: Option<string>, at: nat): Row {
    row.(status := status, url := url, failureReason := reason,
         app := OrElse(app, row.app), handle := OrElse(handle, row.handle), build := OrElse(build, row.build),
         startedAt := Some(at), finishedAt := if InFlight(status) then None else Some(at))
  }

  /** The status the applier writes. */
  function AppliedStatus(result: AdapterResult<ExecutionResult>): EngineStatus {
    if result.Ok? then result.value.status else result.status
  }

  function ApplyToRow(row: Row, result: AdapterResult<ExecutionResult>, at: nat): Row {
    match result
    case Ok(_, x) => SettleRow(row, x.status, x.url, None, x.app, x.handle, x.build, at)
    case Err(status, reason) => SettleRow(row, status, None, Some(reason), None, None, None, at)
  }
}
