# Cloud Wai: verified models of the deployment protocol, the security edge, the URLs and request signing

A Dafny 4.11 project that models four parts of Cloud Wai and proves what they promise.
`dafny verify dfyconfig.toml` checks all of it.

## What is modelled

**The deployment protocol.** A durable job queue, a worker that claims and settles jobs, an executor
that starts a build or polls the one in flight, an applier that mirrors the outcome onto the
deployment row, a lease reaper, and a sweep over stranded rows.

- `Queue`, `InMemoryQueue`: the queue on values, and the queue as the program holds it: two indexes
  over job objects that are updated in place. Every method of the class is proved equal to a function
  on the jobs in enqueue order.
- `Deployments`, `Reconcile`: the decisions: how an engine's answer becomes an execution result, a job
  outcome and a row; what the sweep lists and decides.
- `Protocol`: the whole as a state machine. One step is one engine call, one store write or one queue
  call; between any two of them the clock may move, the API may record work, or the process may die.
  The engine's answers are arguments of the steps, so a run of the machine is a run against some
  engine and every engine is covered. A ledger that nothing reads counts what has happened.
- `ProtocolFrames`, `ProtocolBase`, `ProtocolCalls`, `ProtocolClaims`, `ProtocolSuccess`,
  `ProtocolUsage`, `ProtocolSlots`: the inductive invariants. `ProtocolHistory`: the ledger's record of
  what the engine said of success is exactly what the answers of the run said. `ProtocolRuns`: the
  promises, over every run. `ProtocolScenes`, `ProtocolLimits`, `ProtocolWitnesses`: concrete runs that
  reach the bounds and show the conditions are needed. `ProtocolRefusals`: runs against an engine that
  accepts nothing. `ProtocolExact`: for which configurations and engines the simple promises hold, if and
  only if. `Draining`: the work of a moment, over every run.
- `ProtocolSteps`, `ProtocolActions`, `ProtocolEndings`, `ProtocolQueueing`, `ProtocolSweeps`: what each
  answer comes to, over every run and told by what was asked and answered: which call a job makes next,
  how a claim ends in the queue, what the row then shows field by field, when the pointer and the usage
  move, what a claim, a reap and a submission do, and what the sweep makes of a row.
- `Worker`: the program itself, as a class whose methods sequence the engine calls and writes in the
  source's order. A call may answer, throw or never return. Each call notes the step of the machine
  it is and can be made only where the machine allows that step, so the class is always in a state of
  some run, and the promises hold of its fields.

**The security edge.** `EdgeInput` (entries and their grammars), `SecLang` (a rule language with
chains, transaction variables and two phases, and its interpreter), `EdgeCompiler` (the compiler, as
loops proved equal to folds), `EdgeMeaning` (what a policy means, and that the compiled rules mean the
same), `EdgeShape` (chains, ids, ladder, inertness), `EdgeRoutes` (hosts and publication), `EdgeArtifact`
(what each host's fragment carries and what the ladder holds, told by the policy).

**The dashboard's URLs.** `UriText` (UTF-16 text, UTF-8 and percent-encoding), `UrlPaths`, `WebRoutes`
(parser and printer), `RouteRoundTrips`, `RouteTheorems`, `RoutePages` (the address of every page, and
which addresses are found).

**Request signing.** `SigV4`: the canonical path and query.

## Assumptions

- One worker holds leases at a time: the loop reaps, drains and sweeps in turn
  (`apps/worker/src/runtime.ts:334-371`), and the queue does not check that a job it completes, fails
  or defers is still running.
- A job asks for a row that exists, with the row's own project, kind and staging, and one idempotency
  key per deployment, as the API does (`apps/api/src/procedures/deployments.ts:990-1052`).
- Status writes set or leave handles and overwrite the rest (`packages/database/src/supabase-store.ts:1363-1396`).
- The clock never runs backwards. Ids the engine gives its applications are fresh, where a lemma says so.
- An unset transaction variable reads as the empty string, so a negated chain member on it holds; a
  header a request does not carry matches nothing. Address matching, substring search and the numeric
  comparison of the rule engine are uninterpreted functions.
- A lone code unit that is half of a surrogate pair is encoded to UTF-8 as U+FFFD.

## Where the code and its comments part

The model follows the code.

- A row left terminal by a failed poll, or settled by the sweep under a live job, is deployed again: the
  executor's comment says a terminal row must not re-deploy
  (`apps/worker/src/deployment-executor.ts:537-543`), but there it only stops polling.
  `ProtocolLimits.SettledRowIsDeployedAgain` is such a run, with two engine calls on a budget of one
  and two units of usage. `ProtocolRuns.CallsAreBounded` bounds the calls by counting such settlements.
- So the calls of a job can outrun its attempt budget, and a deployment can be billed twice.
  `ProtocolExact.BudgetKeptExactly` is the exact condition on the configuration and the engine under which
  no run outruns the budget: no polling, or an engine that addresses its work and either no sweep or
  nothing accepted. `ProtocolExact.BudgetKeptByConfiguration` reads it for the engines the executor is
  written for, and for any engine at all. `ProtocolExact.UsageCountedOnceExactly` says the usage is counted
  once in every run if and only if the sweep may list no row.
- An engine that answers with a reference of another type than `deployment` leaves no handle to poll
  (`apps/worker/src/deployment-executor.ts:649-652`), so each later claim deploys again.
  `ProtocolRuns.CallsAreBoundedByTheClock` bounds the calls against such an engine too, and
  `ProtocolLimits.CallsCanReachTheClaimBound` reaches the bound with any one answer that does not address
  the work.
- The executor calls reporting an action's own `succeeded` a guess, and reads the state back
  (`apps/worker/src/deployment-executor.ts:613-615`); when the read-back is refused it keeps the accepted
  status all the same (`apps/worker/src/deployment-executor.ts:669-689`). The function engine accepts every
  deploy as succeeded (`packages/adapters/src/serverless.ts:305`). `ProtocolWitnesses.SuccessCanBeGuessed` is,
  for every reference such an answer can carry, a run where a job completes, goes live and is billed without
  any state having been read; `ProtocolRuns.SuccessWasReadOrGuessed` says this is the only way, and
  `ProtocolExact.SuccessReadExactly` that an engine rules it out if and only if it never answers a deploy or
  rollback as already succeeded.
- The status written with the handle is said never to be `succeeded`
  (`apps/worker/src/deployment-executor.ts:654-658`); it is whatever the action was accepted with:
  `ProtocolWitnesses.RowCanSucceedOnAcceptance`.
- A refused ensure, action or poll whose status is `succeeded` is copied to the row as it stands, though
  never to the job, the pointer or the usage: `ProtocolWitnesses.RowCanSucceedOnRefusal` shows it for each.
  `ProtocolRuns.RowSuccessWasSaid` holds of the rows when no answer does that, and
  `ProtocolHistory.ContradictedExactly` says when one did.
- Recording a build handle writes `running` over whatever the row said
  (`apps/worker/src/runtime.ts:148-156`), where its comment says the status is unchanged:
  `Deployments.BuildHandleKeepsOnlyRunning`.
- A preview without a key uses the production slot (`apps/worker/src/deployment-executor.ts:317`).
  `ProtocolRuns.PreviewNeedsItsKey` is the exact condition, over every run, and
  `ProtocolWitnesses.KeylessPreviewDeploysOntoProduction` a run.
- A job asked for with no attempts waits for ever, whatever calls follow: `Queue.WedgedExactlyWithoutBudget`. A colon in an
  organization or a kind can make two commands share a job, unless another character follows it there:
  `Queue.KeyIsInjectiveExactly`.
- Allowed sources are exempt from the deny list only, where the compiler's comments say an allowed source
  is never counted. Every request that is not denied carries the last limit
  (`EdgeMeaning.LimitsExemptNobody`, `EdgeMeaning.ExcusedAreCountedAlike`), and the phase-2 rule inspects
  every request (`EdgeMeaning.ExcusedStillInspected`).
- The stage list says `protect` comes first (`packages/adapters/src/security-edge.ts:143-156`); the
  compiler pushes that step last, and `EdgeShape.Rank` has it there.
- Hosts that differ only in dots against dashes get one cluster name (`packages/adapters/src/security-edge.ts:909`):
  `EdgeRoutes.ClusterNamesCollideExactly`, and `EdgeRoutes.HostsShareACluster` for two valid hosts.
- Characters outside the basic plane are signed as two replacement characters, so different texts sign
  alike: `SigV4.DifferentCharactersEncodeAlike`.
- The query's parameters are sorted as they are, where the signing standard sorts them encoded. The two
  queries are the same if and only if encoding keeps the order of the request's own parameters
  (`SigV4.SignsStandardExactly`); `SigV4.OrdersAgreeExactly` says when it does for two names,
  `SigV4.OrdersCanDiffer` that it need not.
- A path with a lone surrogate in an id parses to a route that cannot be printed:
  `RouteTheorems.LoneSurrogateDoesNotPrint`.

## Model

| member | source | states |
|---|---|---|
| Queue.FindKey | packages/adapters/src/queue.ts:119-123 | finds the job of a key if and only if one was enqueued under it, and the first such job |
| Queue.FirstClaimable | packages/adapters/src/queue.ts:147-164 | the job a claim takes is claimable and no earlier one is; none is taken exactly when none is claimable |
| Queue.ReapFirstIsAll | packages/adapters/src/queue.ts:216-233 | reaping job by job ends in every lapsed job reaped and every other untouched |
| Queue.CallKeeps | packages/adapters/src/queue.ts:119-233 | every queue call, on any job in any state, keeps the queue's promise: attempts within budget, running exactly when leased, a waiting job has an attempt left, one job per key |
| Queue.CallsKeep | packages/adapters/src/queue.ts:119-233 | the promise holds after any sequence of calls |
| Queue.NoWaitingJobIsWedged | packages/adapters/src/queue.ts:147-164 | after any calls, a waiting job whose deferral has elapsed makes the next claim find work |
| Queue.WedgedExactlyWithoutBudget | packages/adapters/src/queue.ts:125-134 | for a newly filed job there are calls and a time after which it can be claimed if and only if it was asked for with at least one attempt |
| Queue.EnqueueIsIdempotent | packages/adapters/src/queue.ts:119-145 | a repeat under the same key changes nothing, whatever it carries: the first payload wins |
| Queue.KeyIsInjective | packages/adapters/src/queue.ts:115-117 | when every colon of organization and kind is followed there by another character, two commands share a key exactly when organization, kind and key agree |
| Queue.KeyIsInjectiveExactly | packages/adapters/src/queue.ts:115-117 | a command shares its key with no other clean command if and only if its own organization and kind are clean |
| Queue.UncleanOrganizationCollides | packages/adapters/src/queue.ts:115-117 | under an organization that is not clean, every command shares its key with one of another organization |
| Queue.ColonsCollide | packages/adapters/src/queue.ts:115-117 | with a colon, two different commands can share a key |
| InMemoryQueue.FilingAgrees | packages/adapters/src/queue.ts:142-143 | filing a new job under both indexes keeps them describing the same jobs |
| InMemoryQueue.InMemoryJobQueue.Touched | packages/adapters/src/queue.ts:106-107 | updating one stored job in place changes that job's entry in both views and no other |
| InMemoryQueue.InMemoryJobQueue.Enqueue | packages/adapters/src/queue.ts:119-145 | the jobs become those with the command enqueued; a repeat returns the stored job |
| InMemoryQueue.InMemoryJobQueue.Claim | packages/adapters/src/queue.ts:147-164 | the loop takes exactly the first claimable job, leases it, and changes no other |
| InMemoryQueue.InMemoryJobQueue.Complete | packages/adapters/src/queue.ts:166-173 | the named job is completed, an unknown id changes nothing |
| InMemoryQueue.InMemoryJobQueue.Fail | packages/adapters/src/queue.ts:175-187 | the named job is requeued while attempts remain and failed when none do |
| InMemoryQueue.InMemoryJobQueue.Terminate | packages/adapters/src/queue.ts:189-196 | the named job is failed at once |
| InMemoryQueue.InMemoryJobQueue.Defer | packages/adapters/src/queue.ts:198-214 | the named job is requeued with its attempt returned and its deferral set |
| InMemoryQueue.InMemoryJobQueue.ReapExpired | packages/adapters/src/queue.ts:216-233 | exactly the lapsed leases are reaped, and counted |
| InMemoryQueue.InMemoryJobQueue.Get | packages/adapters/src/queue.ts:235-237 | finds a job exactly when the id was issued |
| Draining.ClaimUsesWork | apps/worker/src/processor.ts:93-235 | however a claim ends, its job is claimable for fewer attempts at that moment, or no longer |
| Draining.DrainRunsDry | apps/worker/src/processor.ts:268-276 | with the clock standing still and a positive backoff, a drain finds work at most as often as attempts were left |
| Draining.StandingClockRunsDry | apps/worker/src/runtime.ts:334-371 | in any part of any run in which the clock stands still, with a positive backoff, the claims and the attempts left at its end are at most those left at its start and those asked for within it |
| Draining.WorkBoundsTheDrain | apps/worker/src/processor.ts:268-276 | and with no job running at its start, the claims are at most the attempts that could be claimed there and those asked for within it |
| Draining.WithoutBackoffItNeverEnds | packages/adapters/src/queue.ts:198-214 | without a backoff a deferring job is claimed at one moment any number of times |
| Deployments.BuildHandleKeepsOnlyRunning | apps/worker/src/runtime.ts:143-156 | recording a build handle keeps the status if and only if it was running, and makes a row with an engine handle one that is polled |
| Reconcile.ListStranded | apps/worker/src/deployment-reconcile.ts:140-142 | lists the stranded rows oldest first, each once, cut at the limit, none left out below it |
| Reconcile.SweepDecides | apps/worker/src/deployment-reconcile.ts:208-260 | past the ceiling a row is settled whatever the engine says; before it, only on an answer that ended the build; never as anything but failed unless the engine reported that state |
| Reconcile.ListingCovers | apps/worker/src/deployment-reconcile.ts:141-142 | a limit that covers the backlog leaves no stranded row off the listing |
| Reconcile.SweptRowsAt | apps/worker/src/deployment-reconcile.ts:144-149 | after a pass, each visited row is as its own decision leaves it and no other row has moved |
| Reconcile.SettledAreTheChanged | apps/worker/src/deployment-reconcile.ts:144-149 | the number the sweep reports is the number of rows it changed |
| Reconcile.SettledRowShows | apps/worker/src/deployment-reconcile.ts:214-260 | a settled row shows the engine's settled state and address without a reason, or a failure without an address and with a reason carrying the refusal; past the ceiling it may be given up on |
| Reconcile.SweepOnRow | apps/worker/src/deployment-reconcile.ts:140-311 | a whole sweep on one row, field by field: untouched if not stranded; past the ceiling, if the limit covers the backlog, as the engine's answer leaves it or failed with a reason; otherwise as it was, or as an answer that ended the build leaves it |
| ProtocolBase.StepBase | apps/worker/src/processor.ts:93-276 | every step keeps jobs within budget, the worker's position consistent with the lease it holds, and each job's row its own |
| ProtocolCalls.StepCovers | apps/worker/src/deployment-executor.ts:520-690 | every step keeps calls covered by attempts spent, early settlements, unaddressed deferrals, and one more while a build is in flight; polling that build adds none |
| ProtocolClaims.StepPaced | apps/worker/src/processor.ts:172-217 | every step keeps claims equal to attempts and deferrals, and the deferral checks a backoff apart and before the ceiling |
| ProtocolClaims.StepFits | apps/worker/src/processor.ts:118-140 | every step keeps a job's calls, and the one it may still make, within its claims |
| ProtocolSuccess.StepHonest | apps/worker/src/deployment-executor.ts:617-690 | every step keeps a succeeded job or pointer resting on a state read or guessed after an acceptance, and a succeeded row on that, an acceptance or a contradicting refusal |
| ProtocolHistory.HeardExactly | apps/worker/src/deployment-executor.ts:381-690 | the record of what was said of success holds exactly what some answer of the run said |
| ProtocolHistory.AcceptedExactly | apps/worker/src/deployment-executor.ts:497-497 | an acceptance as succeeded is on record if and only if some deploy or rollback was answered so |
| ProtocolHistory.ContradictedExactly | apps/worker/src/deployment-executor.ts:388-389 | a contradicting refusal is on record if and only if some ensure, action or poll was refused with succeeded |
| ProtocolHistory.ReadElsewhereExactly | apps/worker/src/deployment-reconcile.ts:184-199 | a success is read under another reference than the run's own handle exactly in a sweep of a row without one, or a read-back of an action answered with another kind of reference |
| ProtocolUsage.StepCounted | apps/worker/src/deployment-job.ts:158-203 | every step keeps usage within one unit per deployment and early settlement, across the applier, the sweep and crashes |
| ProtocolSlots.StepBound | apps/worker/src/deployment-executor.ts:330-416 | with fresh ids, every step keeps each slot written at most once, slots distinct, and calls addressed to their own slot |
| ProtocolRuns.RunInvariant | apps/worker/src/runtime.ts:334-371 | all of the above hold in every state of every run |
| ProtocolRuns.CallsAreBounded | apps/worker/src/deployment-executor.ts:520-690 | in every run the deploy and rollback calls for a job are at most its budget, plus the times the sweep settled its row before the job finished, plus the deferrals after a call whose row held nothing to poll once it was mirrored or the mirroring lost |
| ProtocolRuns.BudgetBoundsCalls | apps/worker/src/deployment-executor.ts:643-667 | with an engine that accepts work in flight under a deployment reference, the last term is zero |
| ProtocolRuns.ClaimsAreBounded | apps/worker/src/processor.ts:172-200 | with a positive backoff a job is claimed at most its budget plus the ceiling divided by the backoff, rounded up |
| ProtocolRuns.CallsNeverOutrunClaims | apps/worker/src/processor.ts:118-140 | a job never costs more deploy and rollback calls than claims |
| ProtocolRuns.CallsAreBoundedByTheClock | apps/worker/src/processor.ts:172-200 | against every engine with a positive backoff, the calls for a job are at most its budget plus the ceiling divided by the backoff, rounded up |
| ProtocolRuns.EveryClaimEndsOnce | apps/worker/src/runtime.ts:334-358 | each claim but the one running ended exactly once, and claims are attempts plus deferrals |
| ProtocolRuns.FinishedForever | packages/adapters/src/queue.ts:147-233 | a succeeded or failed job is the same job in every later state |
| ProtocolRuns.SuccessIsNeverInvented | apps/worker/src/deployment-executor.ts:617-690 | over every run, a succeeded job rests on a state read for its deployment or guessed after an acceptance; a succeeded row on that, an acceptance, or a contradicting refusal |
| ProtocolRuns.SuccessWasRead | apps/worker/src/deployment-executor.ts:610-690 | when no deploy or rollback is answered as already succeeded, every succeeded job and live deployment had its state read as succeeded |
| ProtocolRuns.SuccessWasReadOrGuessed | apps/worker/src/deployment-executor.ts:669-689 | against any engine, a succeeded job or live deployment whose state was not read had an action accepted as succeeded and later its read-back refused |
| ProtocolRuns.RowSuccessWasSaid | apps/worker/src/deployment-job.ts:124-216 | when no refusal carries succeeded, every succeeded row was read or accepted as succeeded, and was read when nothing was accepted so |
| ProtocolRuns.LiveIsASuccess | apps/worker/src/deployment-job.ts:180-192 | the production pointer names a production, non-staged deployment of its project, recorded as succeeded on what a job may rest on |
| ProtocolRuns.UsageIsCountedOnce | apps/worker/src/deployment-job.ts:193-200 | a deployment costs at most one unit of usage, plus one per settlement of its row under an unfinished job |
| ProtocolRuns.SlotsAreDistinct | apps/worker/src/deployment-executor.ts:399-415 | with fresh ids each slot is written at most once and no two slots hold one application |
| ProtocolRuns.CallsAddressOwnSlot | apps/worker/src/deployment-executor.ts:330-358 | every call addressed its own job's slot, so a keyed preview never touches any project's production application |
| ProtocolRuns.PreviewNeedsItsKey | apps/worker/src/deployment-executor.ts:317-358 | over every run with fresh ids, an application a preview's call addressed is its project's production application if and only if the preview has no key |
| ProtocolLimits.CallsCanReachTheClaimBound | apps/worker/src/deployment-executor.ts:643-667 | for every answer that does not address the work, a run against an engine that gives only that answer where the calls reach the clock's bound exactly |
| ProtocolLimits.SettledRowIsDeployedAgain | apps/worker/src/deployment-executor.ts:537-543 | for every answer that starts and addresses work, a run where the sweep settles a live job's row and the job deploys and is billed again |
| ProtocolLimits.SettledRowIsBilledAgain | apps/worker/src/deployment-reconcile.ts:140-149 | the same without any poll: the worker dies, the sweep settles the row, the reaped job deploys and is billed again |
| ProtocolWitnesses.SuccessCanBeGuessed | apps/worker/src/deployment-executor.ts:669-689 | for every reference an engine may answer succeeded with, a run whose job completes, goes live and is billed without any state read |
| ProtocolWitnesses.RowCanSucceedOnAcceptance | apps/worker/src/deployment-executor.ts:654-667 | a run whose row says succeeded on an acceptance alone |
| ProtocolWitnesses.RowCanSucceedOnRefusal | apps/worker/src/deployment-executor.ts:388-397 | for a refused ensure, action or poll that carries succeeded, and any reason, a run whose row says succeeded and whose job failed for that reason |
| ProtocolWitnesses.KeylessPreviewDeploysOntoProduction | apps/worker/src/deployment-executor.ts:317-358 | a run with fresh ids where a keyless preview deploys onto the application production was given |
| ProtocolRefusals.StepPays | apps/worker/src/deployment-executor.ts:617-642 | against an engine that refuses every action for good, every step keeps the rows without handles and each call paid by an attempt of its own |
| ProtocolRefusals.RefusalsKeepTheBudget | apps/worker/src/deployment-executor.ts:617-642 | such an engine is never called more often than the budget, whatever the configuration and the sweep |
| ProtocolExact.BudgetKeptExactly | apps/worker/src/deployment-executor.ts:520-690 | for every configuration and set of answers: no run outruns an attempt budget if and only if nothing is polled, or every answer addresses the work and either the sweep may list no row or no answer accepts any |
| ProtocolExact.BudgetKeptByConfiguration | apps/worker/src/deployment-executor.ts:520-583 | for engines that address their work: if and only if nothing is polled or the sweep may list no row; for any engine: if and only if nothing is polled |
| ProtocolExact.UsageCountedOnceExactly | apps/worker/src/deployment-job.ts:193-200 | in every run each deployment costs at most one unit of usage if and only if the sweep may list no row, already against an engine with a single answer |
| ProtocolExact.SuccessReadExactly | apps/worker/src/deployment-executor.ts:610-690 | in every run the success of a job was read if and only if no deploy or rollback can be answered as already succeeded |
| ProtocolActions.StepAsked | apps/worker/src/deployment-executor.ts:364-378 | every step keeps the handler's stages and the calls made to what the job asks for, on the application its slot holds |
| ProtocolActions.CallsAreAskedFor | apps/worker/src/deployment-executor.ts:372-374 | in every run a deploy is called only for a job that asks for one, a rollback only for one that asks for one, with its own commit, which is there |
| ProtocolActions.CallsGoToTheirSlot | apps/worker/src/deployment-executor.ts:497-497 | each call goes to the application its job's slot holds at that moment |
| ProtocolActions.StartedJobActs | apps/worker/src/deployment-executor.ts:364-390 | a started job goes on to what it asks for: a build in flight is polled by its handle; a rollback is called for, or reported as not configured with no call; a deployment gets its application, its artifact, or its deploy |
| ProtocolActions.EnsuredTargetIsRemembered | apps/worker/src/deployment-executor.ts:380-416 | the application the engine answers with is written to the job's slot next; a refusal is reported as it is |
| ProtocolActions.BoundTargetIsDeployed | apps/worker/src/deployment-executor.ts:399-497 | once the slot is written, a function's artifact is built and any other application deployed |
| ProtocolActions.BuildComesBeforeTheDeploy | apps/worker/src/deployment-executor.ts:452-497 | an accepted build is put on the row and awaited, and the deploy carries it; a refused one ends failed with no deploy |
| ProtocolActions.NothingIsBuiltWithoutARepository | apps/worker/src/deployment-executor.ts:452-495 | the builder accepts nothing for a project without a repository |
| ProtocolActions.AnswersAreFollowed | apps/worker/src/deployment-executor.ts:617-673 | work accepted under a handle is recorded with it, its application and its status; other accepted work is read back by its reference; a refusal is reported with the application deployed to and its build |
| ProtocolActions.MarkedWorkIsReadBack | apps/worker/src/deployment-executor.ts:654-673 | once the handle is recorded the state is read of the reference the action was answered with |
| ProtocolEndings.StatesAreReported | apps/worker/src/deployment-executor.ts:550-690 | a state that was read is what the handler reports: the engine's status and address, its reason on a poll or a failure, and the accepted status when it could not be read back |
| ProtocolEndings.ClaimEnds | apps/worker/src/processor.ts:142-222 | a success completes the job; a build in flight returns the attempt and waits a backoff, until the ceiling fails it; not configured and degraded fail it at once; anything else is tried again exactly while attempts remain |
| ProtocolEndings.ThrowsAreTriedAgain | apps/worker/src/processor.ts:118-140 | a handler that throws spends the attempt, and is tried again exactly while attempts remain |
| ProtocolEndings.UnhandledJobsFail | apps/worker/src/processor.ts:100-116 | a job of a kind without a handler fails at once |
| ProtocolEndings.NeverClaimedAgain | packages/adapters/src/queue.ts:147-164 | a finished job is the same and is claimed no more in every later state |
| ProtocolEndings.FinalRefusalsAreFinal | apps/worker/src/processor.ts:218-222 | a job refused as not configured or degraded has failed in every later state and is never claimed again |
| ProtocolEndings.RowShowsTheResult | apps/worker/src/deployment-job.ts:149-216 | field by field: a success or a build in flight is shown with its address and handles and no reason; anything else with its status and reason, no address, and no handle lost |
| ProtocolEndings.AnswerReachesTheRow | apps/worker/src/deployment-job.ts:158-171 | the status the engine was read with is the row's, and a success shows its address |
| ProtocolEndings.SuccessGoesLiveAndIsCounted | apps/worker/src/deployment-job.ts:180-200 | past a success the pointer of its project moves to a production deployment that was not staged, and to no other, and one unit of usage is counted; past anything else neither moves |
| ProtocolEndings.PromotedIsCounted | apps/worker/src/deployment-job.ts:180-200 | the pointer once moved, one unit of usage is counted next |
| ProtocolQueueing.ClaimTakesAJob | packages/adapters/src/queue.ts:147-164 | a claim takes the first due waiting job with an attempt left, spends one, and starts a lease of the configured length |
| ProtocolQueueing.ReapReturnsTheLapsed | packages/adapters/src/queue.ts:216-233 | a reap returns exactly the jobs started a lease ago or longer, to the queue while attempts remain and otherwise as failed |
| ProtocolQueueing.SubmissionFilesAJob | packages/adapters/src/queue.ts:119-145 | a submission files a waiting job with the attempts asked for or three, and a repeat changes nothing |
| ProtocolQueueing.RequestRecordsARow | apps/api/src/procedures/deployments.ts:990-1052 | a request records a pending row with nothing known of it yet, and changes no other |
| ProtocolSweeps.SweepsListTheStranded | apps/worker/src/deployment-reconcile.ts:140-142 | a sweep starts from the oldest rows not settled and older than the cutoff, as they are at that moment |
| ProtocolSweeps.RowsAreAskedAbout | apps/worker/src/deployment-reconcile.ts:181-218 | the engine is asked about the row's own handle, failing that about its application; with neither the row is failed, and only past the ceiling |
| ProtocolSweeps.RowsArePassedOver | apps/worker/src/deployment-reconcile.ts:202-212 | a row is passed over unasked only with neither handle and before the ceiling |
| ProtocolSweeps.AnswersAreHeeded | apps/worker/src/deployment-reconcile.ts:218-260 | a settled state is written with its address, a missing build and anything past the ceiling as failed with the refusal as its reason; otherwise nothing is written |
| ProtocolSweeps.SettledSuccessGoesLiveAndIsCounted | apps/worker/src/deployment-reconcile.ts:296-311 | past a row settled as succeeded the pointer and the usage move as after the applier's; past any other neither does |
| ProtocolSweeps.PromotedRowIsCounted | apps/worker/src/deployment-reconcile.ts:296-311 | the pointer once moved, the row is counted next |
| Worker.LeadsOn | apps/worker/src/processor.ts:93-276 | a step taken where the machine allows it extends the run |
| Worker.LeadsKeeps | apps/worker/src/processor.ts:93-276 | whatever the program reaches satisfies every invariant |
| Worker.ProgramKeepsItsPromises | apps/worker/src/deployment-job.ts:158-203 | the program's own usage, rows and pointer keep the usage, success and pointer promises; a live deployment's state was read unless an action was answered as already succeeded |
| Worker.ProgramBoundsItsCalls | apps/worker/src/deployment-executor.ts:303-499 | the program's engine calls keep the bound on calls |
| Worker.ProgramIsSafe | apps/worker/src/runtime.ts:334-371 | with a safe configuration and engine the program's calls keep to the budget, and without sweeps its usage to one unit per deployment |
| Worker.ControlPlane.constructor | apps/worker/src/runtime.ts:310-332 | starts with nothing recorded, in the machine's initial state |
| Worker.ControlPlane.SetSlot | apps/worker/src/deployment-executor.ts:400-415 | writes the job's own slot, or was broken off before or after the write |
| Worker.ControlPlane.MarkDeploymentInFlight | apps/worker/src/deployment-executor.ts:659-667 | the handle is on the row before the state is read back, or the handler was broken off |
| Worker.ControlPlane.ReadBack | apps/worker/src/deployment-executor.ts:669-689 | the result carries the engine's own status, url and, for a failure, reason; the accepted status when it could not be asked |
| Worker.ControlPlane.Confirm | apps/worker/src/deployment-executor.ts:617-690 | a refusal is reported as it is; accepted work is marked, then read back |
| Worker.ControlPlane.ResumeRunningDeployment | apps/worker/src/deployment-executor.ts:520-583 | polls exactly the rows in flight with a handle, deploys nothing, and otherwise changes nothing |
| Worker.ControlPlane.RollbackDeployment | apps/worker/src/deployment-executor.ts:585-608 | without an application or a commit nothing is called and the result is not_configured |
| Worker.ControlPlane.EnsureApplication | apps/worker/src/deployment-executor.ts:380-416 | an empty slot is filled with the engine's new application, a full one is left |
| Worker.ControlPlane.BuildArtifact | apps/worker/src/deployment-executor.ts:452-495 | no repository or a refused build ends in a failed result before any deploy |
| Worker.ControlPlane.ExecuteDeployment | apps/worker/src/deployment-executor.ts:303-499 | whatever the engine answers, the handler makes only protocol steps and reports what the machine's handler stage holds |
| Worker.ControlPlane.WriteOutcome | apps/worker/src/deployment-job.ts:158-216 | the row becomes the machine's, or the write was lost and nothing else moved |
| Worker.ControlPlane.Apply | apps/worker/src/deployment-job.ts:149-216 | row, then pointer, then usage, each only if the one before was written, and only past a success |
| Worker.ControlPlane.Judge | apps/worker/src/processor.ts:142-222 | the branches agree with the classification the invariants are proved of: success completes, in flight defers below the ceiling and ends past it, not configured and degraded end at once, any other failure fails the attempt |
| Worker.ControlPlane.EndClaim | apps/worker/src/processor.ts:128-221 | the claim ends in one queue call at the current time, or the job is left to its lease |
| Worker.ControlPlane.Finish | apps/worker/src/processor.ts:245-265 | the queue is told before the row is mirrored, and the outcome is applied exactly when the job was completed |
| Worker.ControlPlane.Tick | apps/worker/src/processor.ts:93-235 | at most one job is claimed and its claim ended; when nothing is returned the queue is unchanged and holds nothing claimable; a job is reported applied exactly when it succeeded, and one reported not configured or degraded has failed |
| Worker.ControlPlane.Drain | apps/worker/src/processor.ts:268-276 | as many claims as outcomes and no more than the maximum; a drain cut short of it left nothing claimable |
| Worker.ControlPlane.Reap | apps/worker/src/runtime.ts:338-338 | the lapsed claims are returned, and counted |
| Worker.ControlPlane.Resolve | apps/worker/src/deployment-reconcile.ts:160-260 | a row is asked about by its own handle or its application, and decided from that answer only |
| Worker.ControlPlane.WriteSettled | apps/worker/src/deployment-reconcile.ts:270-311 | the row is written first, then the pointer and the usage of a success |
| Worker.ControlPlane.Sweep | apps/worker/src/deployment-reconcile.ts:140-151 | the rows become those of a pass over a correct listing with decisions each row allows, and the count is of the rows settled |
| Worker.ControlPlane.RequestDeployment | apps/api/src/procedures/deployments.ts:990-1052 | the row is recorded before its job; a request that dies in between leaves the row |
| Worker.ControlPlane.Cycle | apps/worker/src/runtime.ts:335-358 | first every lapsed claim is returned, then at most fifty jobs are claimed, fewer only when none is left, then the stranded rows are swept exactly when a sweep is due |
| Worker.ControlPlane.RunLoop | apps/worker/src/runtime.ts:330-371 | the loop runs as many cycles as it is left running unless the process dies, each reaping first, and sweeps are never closer than the interval |
| EdgeInput.ProtectionOf | packages/adapters/src/security-edge.ts:429-432 | a posture that validates passes unchanged; what comes out always validates, and protects only if it was asked to |
| EdgeInput.BotIsInert | packages/adapters/src/security-edge.ts:83-103 | a validated bot holds no character of directive syntax |
| EdgeInput.DenyIsInert | packages/adapters/src/security-edge.ts:211-234 | a validated deny value holds no character of directive syntax |
| EdgeInput.SourceIsInert | packages/adapters/src/security-edge.ts:254-266 | a validated trusted address holds no character of directive syntax |
| EdgeCompiler.CompileBots | packages/adapters/src/security-edge.ts:750-764 | the loop over bots pushes and numbers the steps of the bot section |
| EdgeCompiler.CompileTrusted | packages/adapters/src/security-edge.ts:787-794 | the loop over trusted sources pushes and numbers the steps of that section |
| EdgeCompiler.CompileDenies | packages/adapters/src/security-edge.ts:810-826 | the loop over deny rules pushes each four-rule chain |
| EdgeCompiler.CompileRates | packages/adapters/src/security-edge.ts:832-851 | the loop over rate limits pushes an action and a descriptor each |
| EdgeCompiler.CompileRoutes | packages/adapters/src/security-edge.ts:887-919 | the loop with its set of seen hosts yields the fragments and whether any is protected |
| EdgeCompiler.CompileEdge | packages/adapters/src/security-edge.ts:733-945 | the program's artifact is the one the theorems are proved of |
| EdgeMeaning.PatternIsUnder | packages/adapters/src/security-edge.ts:482-495 | the emitted pattern accepts the suffix and the names under it at a label boundary, and nothing else |
| EdgeMeaning.FirstHit | packages/adapters/src/security-edge.ts:810-826 | the first valid deny rule that matches, if there is one |
| EdgeMeaning.BotsMean | packages/adapters/src/security-edge.ts:750-764 | reading the bot section marks the request exactly when some valid bot is claimed and confirmed |
| EdgeMeaning.DeniesMean | packages/adapters/src/security-edge.ts:810-826 | reading the deny section gives the first matching valid rule's id, or passes, and an excused request always passes |
| EdgeMeaning.CompilerPreservesMeaning | packages/adapters/src/security-edge.ts:733-884 | for every policy, engine, request and score, reading the compiled rules in both phases gives exactly the policy's verdict, down to the id of the rule that denied |
| EdgeMeaning.AttackModeDeniesNobodyElse | packages/adapters/src/security-edge.ts:853-863 | the same requests are denied in normal and attack mode |
| EdgeMeaning.ClaimingIsNotEnough | packages/adapters/src/security-edge.ts:497-523 | a request that only claims to be a bot is denied like any other |
| EdgeMeaning.ExcusedStillInspected | packages/adapters/src/security-edge.ts:862-884 | an excused request passes the deny list and still meets the phase-2 rule |
| EdgeMeaning.LimitsExemptNobody | packages/adapters/src/security-edge.ts:828-851 | after the first phase every request that was not denied reads the last valid limit's rate and key, or nothing if there is none |
| EdgeMeaning.ExcusedAreCountedAlike | packages/adapters/src/security-edge.ts:828-851 | an excused request and a passing one that is not excused read the same limit |
| EdgeShape.CompiledIsReviewable | packages/adapters/src/security-edge.ts:739-934 | chains are closed and members are exactly what follows a chaining rule; ids rise; every step but protect names one whole chain or action; stages follow the ladder's order |
| EdgeShape.NamedOnce | packages/adapters/src/security-edge.ts:739-884 | a step stands in the list in one place only |
| EdgeShape.InvalidEntriesAreInert | packages/adapters/src/security-edge.ts:750-916 | an input compiles to exactly the artifact of the input without its invalid entries, ids included |
| EdgeShape.LayersAgreeOnTrust | packages/adapters/src/security-edge.ts:889-916 | the addresses the edge does not challenge are the trusted addresses of the rules, in order, on every fragment |
| EdgeShape.EveryValidLimitIsEnforced | packages/adapters/src/security-edge.ts:533-542 | the enforced limits are the valid rules in order, each with its own key, number and window |
| EdgeMeaning.DecimalSpells | packages/adapters/src/security-edge.ts:877-878 | numbers in directives are written in decimal |
| EdgeArtifact.HostsAreServed | packages/adapters/src/security-edge.ts:901-919 | each named host's fragment carries the path, origin and cluster of the first route naming it and its posture whenever that validates, otherwise none; inspection exactly with a policy, the challenge exactly in attack mode, the valid trusted addresses in order |
| EdgeArtifact.PrimaryLeads | packages/adapters/src/security-edge.ts:936-944 | the artifact's own fragment, posture and version are the primary route's and the policy's |
| EdgeArtifact.RulesAreScoped | packages/adapters/src/security-edge.ts:739-742 | the rules start by turning the engine on for the primary route's path, and that rule refuses nothing |
| EdgeArtifact.LadderIsComplete | packages/adapters/src/security-edge.ts:744-934 | the ladder holds one step for each valid entry and each mode, each with its stage's action, and one protect step exactly when some host's first route asks for a valid posture that protects |
| EdgeArtifact.CuratedDirectoryIsValid | packages/adapters/src/security-edge.ts:114-124 | none of the nine curated bots is dropped: all of them validate |
| EdgeArtifact.ChallengeIsMarkedExactly | packages/adapters/src/security-edge.ts:853-863 | the rules mark every request for the challenge exactly in attack mode |
| EdgeRoutes.ClusterNamesCollideExactly | packages/adapters/src/security-edge.ts:909-909 | two hosts get one cluster name if and only if they differ at most in dots against dashes |
| EdgeRoutes.HostsShareACluster | packages/adapters/src/security-edge.ts:909-909 | two valid hosts with one cluster name |
| EdgeRoutes.FirstRouteDecides | packages/adapters/src/security-edge.ts:901-919 | each named host gets one fragment, from the first route naming it, and no other host gets any |
| EdgeRoutes.PublishKeepsOtherHosts | packages/adapters/src/security-edge.ts:1044-1057 | after publishing a host, hosts are distinct, that host's fragment is compiled from its route, and every other host's fragment is unchanged |
| EdgeRoutes.PublishKeepsTheRules | packages/adapters/src/security-edge.ts:1044-1057 | the published rules, ladder and limits are the policy's, but for the rule that scopes the path and the protect step |
| EdgeRoutes.PublishRoute | packages/adapters/src/security-edge.ts:1025-1057 | publishes exactly the known, valid routes of a configured organization, none without a host name, a path and a private origin, and says which condition failed |
| EdgeArtifact.PublishedIsServed | packages/adapters/src/security-edge.ts:1044-1057 | the published host is served as its route asks, under the organization's policy |
| EdgeArtifact.BareIsServed | packages/adapters/src/security-edge.ts:1057-1057 | without a policy the host alone is served, with no inspection, challenge, limits or entries of anyone's own |
| EdgeArtifact.PrivateExactly | packages/adapters/src/security-edge.ts:194-195 | a dotted address is taken for a private origin if and only if its first two numbers are in one of five private ranges |
| UriText.DecodeEncode | apps/web/src/routes.ts:335-395 | decoding undoes encoding for every text that can be encoded |
| UriText.EncodesExactlyWellFormed | apps/web/src/routes.ts:335-395 | a text can be encoded if and only if its surrogates pair up |
| UriText.DecodeWellFormed | apps/web/src/routes.ts:218-218 | decoding neither makes nor mends a lone surrogate |
| UrlPaths.ComponentsJoined | apps/web/src/routes.ts:214-218 | splitting, filtering and decoding a joined path gives the decoded pieces |
| UrlPaths.ComponentsWellFormed | apps/web/src/routes.ts:214-218 | a path's components are non-empty, and hold a lone surrogate exactly when the path does |
| RouteTheorems.RouteOfFaithful | apps/web/src/routes.ts:219-332 | every branch of the parser yields a missing page or a route that is good exactly when the components are well formed |
| RouteTheorems.ParseToPath | apps/web/src/routes.ts:214-396 | parsing a printed good route gives it back, for all 26 kinds |
| RouteTheorems.ToPathIsInjective | apps/web/src/routes.ts:335-396 | no two good routes print the same path |
| RouteTheorems.ParsedIsGood | apps/web/src/routes.ts:214-332 | what is parsed from a path is good if and only if the path holds no lone surrogate |
| RouteTheorems.RoundTripsExactlyWhenGood | apps/web/src/routes.ts:214-396 | a route survives printing and parsing if and only if its ids are there and printable and its sections declared |
| RouteTheorems.ParsingCanonicalises | apps/web/src/routes.ts:214-396 | printing and parsing again what a path parsed to changes nothing, if and only if it is missing or the path holds no lone surrogate |
| RouteTheorems.LoneSurrogateDoesNotPrint | apps/web/src/routes.ts:214-396 | a path that parses to a route that cannot be printed |
| RoutePages.EveryPageHasItsAddress | apps/web/src/routes.ts:335-396 | every route prints its page's own address, written out for each kind, its ids encoded in their places |
| RoutePages.ParsedNamesItsPath | apps/web/src/routes.ts:214-332 | a path that is found names a route with exactly its components, or is the `data` alias of a database |
| RoutePages.DataIsDatabase | apps/web/src/routes.ts:249-250 | `data` leads to the database page, whatever the ids |
| RoutePages.FoundExactly | apps/web/src/routes.ts:214-332 | below the root a path is found if and only if its components are a good route's own or the alias |
| SigV4.EncodesAlikeExactly | packages/adapters/src/aws-signature.ts:66-77 | two texts encode alike if and only if they agree once surrogates are replaced |
| SigV4.DifferentCharactersEncodeAlike | packages/adapters/src/aws-signature.ts:60-77 | two different characters encode alike |
| SigV4.EncodesNormally | packages/adapters/src/aws-signature.ts:66-77 | every encoding holds only unreserved characters, kept slashes and upper-case escapes of anything else, and decodes to the text, surrogates replaced |
| SigV4.PlainStandsForItself | packages/adapters/src/aws-signature.ts:66-77 | a text of unreserved characters, and slashes where they are kept, is its own encoding |
| SigV4.CanonicalPathKeepsTheResource | packages/adapters/src/aws-signature.ts:80-83 | the signed path decodes to what the request's path decodes to, if and only if that has no surrogates |
| SigV4.CanonicalPathTwice | packages/adapters/src/aws-signature.ts:80-83 | canonicalising a path twice is canonicalising it once |
| SigV4.CanonicalPathKeepsSegments | packages/adapters/src/aws-signature.ts:80-83 | the canonical path has the decoded path's slashes, and between them each segment in normal encoding |
| SigV4.PlainPathIsCanonical | packages/adapters/src/aws-signature.ts:80-83 | a path of slashes and unreserved characters is its own canonical path |
| SigV4.AtMostIsTransitive | packages/adapters/src/aws-signature.ts:86-88 | the comparator orders pairs transitively |
| SigV4.SortSorts | packages/adapters/src/aws-signature.ts:86-88 | sorting yields a sorted permutation |
| SigV4.SortedIsUnique | packages/adapters/src/aws-signature.ts:86-88 | there is one sorted permutation |
| SigV4.QueryIgnoresOrder | packages/adapters/src/aws-signature.ts:84-91 | the canonical query is the same for every order of the parameters |
| SigV4.QueriesAgreeExactly | packages/adapters/src/aws-signature.ts:84-91 | any two queries agree if and only if their sorted parameters agree pairwise up to surrogates |
| SigV4.PlainQueriesAgreeExactly | packages/adapters/src/aws-signature.ts:84-91 | without surrogates, two queries agree if and only if the parameters are the same multiset |
| SigV4.QueryReads | packages/adapters/src/aws-signature.ts:84-91 | read back at its ampersands and equals signs, the query is the sorted parameters, each name and value in normal encoding |
| SigV4.SignsStandardExactly | packages/adapters/src/aws-signature.ts:84-91 | the query is the one that sorts the encoded parameters if and only if encoding keeps the order of the request's own parameters |
| SigV4.NamesKeepOrderExactly | packages/adapters/src/aws-signature.ts:86-88 | two parameters whose names differ keep their order if and only if the characters where the names part do |
| SigV4.OrdersAgreeExactly | packages/adapters/src/aws-signature.ts:86-88 | for names without surrogates, the raw and the encoded order agree if and only if, where the names part, both or neither character is escaped, or the escaped one is the smaller |
| SigV4.BeginningsKeepOrder | packages/adapters/src/aws-signature.ts:86-88 | the beginning of a name comes before it in both orders |
| SigV4.OrdersCanDiffer | packages/adapters/src/aws-signature.ts:86-88 | two names whose raw and encoded orders differ |
| SigV4.CanonicaliseQuery | packages/adapters/src/aws-signature.ts:80-93 | the program's query is the one the theorems are proved of |

## Left out

- HTTP, the engine clients, DNS, the rate-limit filter and the database: the engine's and the store's answers are arguments of the steps.
- The SQL queue: its claim, defer and reap rules live in database functions that are not part of this model.
- Handlers of other job kinds: a job of another kind is terminated as having none.
- Providers, environment sync, root directories and build packs: they do not decide a step.
- The builder's polling: one answer stands for it.
- The API's own status writes, cancellation and manual promotion.
- The pointer move is unconditional; the database function may refuse it.
- Minutes in the reason texts: the reasons name what they report without the number.
- Hashing, HMAC, the header canonicalisation and the URL parser in front of the canonical query.
- The text of the directives: they are typed, and validated values are proved free of directive syntax.
- Policy distribution and quarantine: one call each.
- Navigation tables, section titles and page components.
- Worker.ControlPlane.Drain: does not say how many jobs a drain that takes time can find, because new time makes deferred jobs claimable; `Draining.StandingClockRunsDry` says it for any stretch of one moment.
- ProtocolRuns.SuccessIsNeverInvented: does not say that every success was read, because the code keeps an accepted status when the read-back is refused and copies a refusal's status to the row; `ProtocolExact.SuccessReadExactly` and `ProtocolRuns.RowSuccessWasSaid` give the conditions under which it was.
