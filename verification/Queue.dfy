/**
 The durable job queue.

 A job is `JobRunning` exactly while a worker holds its lease. A claim spends one
 attempt, a deferral gives it back, and a lapsed lease keeps it spent.

 The first half is the queue on values: what each call does to the jobs, in the
 order they were enqueued. The second half is the queue the program holds, two
 indexes over shared job objects that are updated in place.
 */
module Queue {
  import opened Contracts

  /** A job as a value. `id` is the number the queue's counter gave it. */
  datatype Job<+P> = Job(
    id: nat,
    organization: string,
    kind: string,
    payload: P,
    key: string,
    state: JobState,
    attempts: nat,
    maxAttempts: int,
    createdAt: nat,
    startedAt: Option<nat>,
    finishedAt: Option<nat>,
    lastError: Option<string>,
    leaseExpiresAt: Option<nat>,
    deferredUntil: Option<nat>)

  datatype EnqueueInput<+P> = EnqueueInput(
    organization: string,
    kind: string,
    payload: P,
    key: string,
    maxAttempts: Option<int>)

  const DEFAULT_MAX_ATTEMPTS := 3

  /** The idempotency index's key. */
  function KeyOf(organization: string, kind: string, key: string): string {
    organization + "::" + kind + "::" + key
  }

  function JobKey<P>(job: Job<P>): string {
    KeyOf(job.organization, job.kind, job.key)
  }

  function InputKey<P>(input: EnqueueInput<P>): string {
    KeyOf(input.organization, input.kind, input.key)
  }

  // ---------------------------------------------------------------- one job

  function NewJob<P>(id: nat, input: EnqueueInput<P>, now: nat): Job<P> {
    Job(id, input.organization, input.kind, input.payload, input.key, JobQueued, 0,
        if input.maxAttempts.Some? then input.maxAttempts.value else DEFAULT_MAX_ATTEMPTS,
        now, None, None, None, None, None)
  }

  /** A job a worker may take now: waiting, with an attempt left and its deferral elapsed. */
  predicate Claimable<P>(job: Job<P>, now: nat) {
    && job.state == JobQueued
    && job.attempts < job.maxAttempts
    && !(job.deferredUntil.Some? && job.deferredUntil.value > now)
  }

  function TakeJob<P>(job: Job<P>, now: nat, leaseMs: nat): Job<P> {
    job.(state := JobRunning,
         attempts := job.attempts + 1,
         startedAt := Some(now),
         leaseExpiresAt := Some(now + leaseMs),
         deferredUntil := None)
  }

  function CompleteJob<P>(job: Job<P>, now: nat): Job<P> {
    job.(state := JobSucceeded, finishedAt := Some(now), leaseExpiresAt := None, lastError := None)
  }

  function FailJob<P>(job: Job<P>, reason: string, now: nat): Job<P> {
    var released := job.(lastError := Some(reason), leaseExpiresAt := None);
    if job.attempts >= job.maxAttempts
    then released.(state := JobFailed, finishedAt := Some(now))
    else released.(state := JobQueued)
  }

  function TerminateJob<P>(job: Job<P>, reason: string, now: nat): Job<P> {
    job.(state := JobFailed, lastError := Some(reason), finishedAt := Some(now), leaseExpiresAt := None)
  }

  function DeferJob<P>(job: Job<P>, reason: string, deferMs: int, now: nat): Job<P> {
    job.(state := JobQueued,
         lastError := Some(reason),
         startedAt := None,
         leaseExpiresAt := None,
         attempts := if job.attempts == 0 then 0 else job.attempts - 1,
         deferredUntil := if deferMs > 0 then Some(now + deferMs) else None)
  }

  /** A running job whose lease has lapsed. */
  predicate Expired<P>(job: Job<P>, now: nat) {
    job.state == JobRunning && job.leaseExpiresAt.Some? && job.leaseExpiresAt.value <= now
  }

  function ReapJob<P>(job: Job<P>, now: nat): Job<P> {
    if !Expired(job, now) then job
    else if job.attempts >= job.maxAttempts
    then job.(state := JobFailed,
              finishedAt := Some(now),
              lastError := Some("lease expired and no attempts remain"),
              leaseExpiresAt := None)
    else job.(state := JobQueued, lastError := Some("lease expired"), leaseExpiresAt := None)
  }

  // ---------------------------------------------------------------- all jobs

  /** The position of the job already enqueued under `key`, if there is one. */
  function FindKey<P>(jobs: seq<Job<P>>, key: string): (r: Option<nat>)
    ensures r.None? <==> forall i :: 0 <= i < |jobs| ==> JobKey(jobs[i]) != key
    ensures r.Some? ==> r.value < |jobs| && JobKey(jobs[r.value]) == key
    ensures r.Some? ==> forall i :: 0 <= i < r.value ==> JobKey(jobs[i]) != key
  {
    if |jobs| == 0 then None
    else
      var before := FindKey(jobs[..|jobs| - 1], key);
      if before.Some? then before
      else if JobKey(jobs[|jobs| - 1]) == key then Some(|jobs| - 1)
      else None
  }

  /** The jobs after an enqueue: unchanged on a repeat, otherwise one longer. */
  function Enqueued<P>(jobs: seq<Job<P>>, input: EnqueueInput<P>, now: nat): seq<Job<P>> {
    if FindKey(jobs, InputKey(input)).Some? then jobs
    else jobs + [NewJob(|jobs| + 1, input, now)]
  }

  /** The position of the job a claim takes: the first claimable one, in enqueue order. */
  function FirstClaimable<P>(jobs: seq<Job<P>>, now: nat): (r: Option<nat>)
    ensures r.None? <==> forall i :: 0 <= i < |jobs| ==> !Claimable(jobs[i], now)
    ensures r.Some? ==> r.value < |jobs| && Claimable(jobs[r.value], now)
    ensures r.Some? ==> forall i :: 0 <= i < r.value ==> !Claimable(jobs[i], now)
  {
    if |jobs| == 0 then None
    else
      var before := FirstClaimable(jobs[..|jobs| - 1], now);
      if before.Some? then before
      else if Claimable(jobs[|jobs| - 1], now) then Some(|jobs| - 1)
      else None
  }

  function ReapAll<P>(jobs: seq<Job<P>>, now: nat): seq<Job<P>> {
    seq(|jobs|, i requires 0 <= i < |jobs| => ReapJob(jobs[i], now))
  }

  /** How many of the first `n` jobs have a lapsed lease. */
  function CountExpired<P>(jobs: seq<Job<P>>, n: nat, now: nat): nat
    requires n <= |jobs|
  {
    if n == 0 then 0 else CountExpired(jobs, n - 1, now) + (if Expired(jobs[n - 1], now) then 1 else 0)
  }

  lemma FirstClaimableIs<P>(jobs: seq<Job<P>>, now: nat, i: nat)
    requires i < |jobs| && Claimable(jobs[i], now)
    requires forall k :: 0 <= k < i ==> !Claimable(jobs[k], now)
    ensures FirstClaimable(jobs, now) == Some(i)
  {
  }

  /** The queue with its first `n` jobs reaped. */
  function ReapFirst<P>(jobs: seq<Job<P>>, n: nat, now: nat): (r: seq<Job<P>>)
    requires n <= |jobs|
    ensures |r| == |jobs|
  {
    if n == 0 then jobs else ReapFirst(jobs, n - 1, now)[n - 1 := ReapJob(jobs[n - 1], now)]
  }

  lemma {:induction false} ReapFirstAt<P>(jobs: seq<Job<P>>, n: nat, now: nat, i: nat)
    requires n <= |jobs| && i < |jobs|
    ensures ReapFirst(jobs, n, now)[i] == if i < n then ReapJob(jobs[i], now) else jobs[i]
  {
    if n > 0 {
      ReapFirstAt(jobs, n - 1, now, i);
    }
  }

  lemma ReapFirstIsAll<P>(jobs: seq<Job<P>>, now: nat)
    ensures ReapFirst(jobs, |jobs|, now) == ReapAll(jobs, now)
  {
    forall i | 0 <= i < |jobs| ensures ReapFirst(jobs, |jobs|, now)[i] == ReapAll(jobs, now)[i] {
      ReapFirstAt(jobs, |jobs|, now, i);
    }
  }

  // ---------------------------------------------------------------- what every call keeps

  /**
   The queue's promise about one job: its attempts stay within the budget, it is
   running exactly when it is leased, and a waiting job always has an attempt
   left, so nothing waits that can never be claimed again.
   */
  predicate JobOk<P>(job: Job<P>) {
    && 0 <= job.attempts <= job.maxAttempts
    && 1 <= job.maxAttempts
    && (job.state == JobRunning <==> job.leaseExpiresAt.Some?)
    && (job.state == JobRunning ==> 1 <= job.attempts)
    && (job.state == JobQueued ==> job.attempts < job.maxAttempts)
  }

  ghost predicate QueueOk<P>(jobs: seq<Job<P>>) {
    && (forall i :: 0 <= i < |jobs| ==> JobOk(jobs[i]) && jobs[i].id == i + 1)
    && (forall i, j :: 0 <= i < j < |jobs| ==> JobKey(jobs[i]) != JobKey(jobs[j]))
  }

  /** A call on the queue, for stating what a whole sequence of calls keeps. */
  datatype Call<+P> =
    | CallEnqueue(input: EnqueueInput<P>, now: nat)
    | CallClaim(now: nat, leaseMs: nat)
    | CallComplete(id: nat, now: nat)
    | CallFail(id: nat, reason: string, now: nat)
    | CallTerminate(id: nat, reason: string, now: nat)
    | CallDefer(id: nat, reason: string, deferMs: int, now: nat)
    | CallReap(now: nat)

  /** The job a call names, updated; a call on an unknown id changes nothing. */
  function Update<P>(jobs: seq<Job<P>>, id: nat, update: Job<P> -> Job<P>): seq<Job<P>> {
    if 1 <= id <= |jobs| then jobs[id - 1 := update(jobs[id - 1])] else jobs
  }

  function Perform<P>(jobs: seq<Job<P>>, call: Call<P>): seq<Job<P>> {
    match call
    case CallEnqueue(input, now) => Enqueued(jobs, input, now)
    case CallClaim(now, leaseMs) =>
      var found := FirstClaimable(jobs, now);
      if found.Some? then jobs[found.value := TakeJob(jobs[found.value], now, leaseMs)] else jobs
    case CallComplete(id, now) => Update(jobs, id, job => CompleteJob(job, now))
    case CallFail(id, reason, now) => Update(jobs, id, job => FailJob(job, reason, now))
    case CallTerminate(id, reason, now) => Update(jobs, id, job => TerminateJob(job, reason, now))
    case CallDefer(id, reason, deferMs, now) => Update(jobs, id, job => DeferJob(job, reason, deferMs, now))
    case CallReap(now) => ReapAll(jobs, now)
  }

  function PerformAll<P>(jobs: seq<Job<P>>, calls: seq<Call<P>>): seq<Job<P>> {
    if |calls| == 0 then jobs
    else Perform(PerformAll(jobs, calls[..|calls| - 1]), calls[|calls| - 1])
  }

  /** The caller asked for at least one attempt, or left the default. */
  predicate Budgeted<P>(input: EnqueueInput<P>) {
    input.maxAttempts.Some? ==> 1 <= input.maxAttempts.value
  }

  predicate BudgetedCall<P>(call: Call<P>) {
    call.CallEnqueue? ==> Budgeted(call.input)
  }

  lemma EnqueueKeeps<P>(jobs: seq<Job<P>>, input: EnqueueInput<P>, now: nat)
    requires QueueOk(jobs) && Budgeted(input)
    ensures QueueOk(Enqueued(jobs, input, now))
  {
  }

  lemma UpdateKeeps<P>(jobs: seq<Job<P>>, id: nat, update: Job<P> -> Job<P>)
    requires QueueOk(jobs)
    requires forall job :: JobOk(job) ==>
               JobOk(update(job)) && update(job).id == job.id && JobKey(update(job)) == JobKey(job)
    ensures QueueOk(Update(jobs, id, update))
  {
  }

  lemma ClaimKeeps<P>(jobs: seq<Job<P>>, i: nat, now: nat, leaseMs: nat)
    requires QueueOk(jobs) && i < |jobs| && Claimable(jobs[i], now)
    ensures QueueOk(jobs[i := TakeJob(jobs[i], now, leaseMs)])
  {
  }

  lemma ReapKeeps<P>(jobs: seq<Job<P>>, now: nat)
    requires QueueOk(jobs)
    ensures QueueOk(ReapAll(jobs, now))
  {
    var reaped := ReapAll(jobs, now);
    assert forall i :: 0 <= i < |jobs| ==> reaped[i] == ReapJob(jobs[i], now);
  }

  /**
   Every call, on any job in any state, keeps the promise. In particular a
   `complete`, `fail`, `terminate` or `defer` of a job that is no longer running
   changes that job's state, and still breaks nothing here.
   */
  lemma CallKeeps<P>(jobs: seq<Job<P>>, call: Call<P>)
    requires QueueOk(jobs) && BudgetedCall(call)
    ensures QueueOk(Perform(jobs, call))
  {
    match call
    case CallEnqueue(input, now) => EnqueueKeeps(jobs, input, now);
    case CallClaim(now, leaseMs) =>
      var found := FirstClaimable(jobs, now);
      if found.Some? {
        ClaimKeeps(jobs, found.value, now, leaseMs);
      }
    case CallComplete(id, now) => UpdateKeeps(jobs, id, job => CompleteJob(job, now));
    case CallFail(id, reason, now) => UpdateKeeps(jobs, id, job => FailJob(job, reason, now));
    case CallTerminate(id, reason, now) => UpdateKeeps(jobs, id, job => TerminateJob(job, reason, now));
    case CallDefer(id, reason, deferMs, now) => UpdateKeeps(jobs, id, job => DeferJob(job, reason, deferMs, now));
    case CallReap(now) => ReapKeeps(jobs, now);
  }

  lemma {:induction false} CallsKeep<P>(jobs: seq<Job<P>>, calls: seq<Call<P>>)
    requires QueueOk(jobs)
    requires forall i :: 0 <= i < |calls| ==> BudgetedCall(calls[i])
    ensures QueueOk(PerformAll(jobs, calls))
  {
    if |calls| > 0 {
      CallsKeep(jobs, calls[..|calls| - 1]);
      CallKeeps(PerformAll(jobs, calls[..|calls| - 1]), calls[|calls| - 1]);
    }
  }

  /**
   No waiting job is wedged: after any calls, once its deferral has elapsed a claim
   cannot come back empty-handed.
   */
  lemma NoWaitingJobIsWedged<P>(calls: seq<Call<P>>, i: nat, now: nat)
    requires forall k :: 0 <= k < |calls| ==> BudgetedCall(calls[k])
    requires i < |PerformAll([], calls)|
    requires PerformAll<P>([], calls)[i].state == JobQueued
    requires PerformAll<P>([], calls)[i].deferredUntil.Some? ==> PerformAll<P>([], calls)[i].deferredUntil.value <= now
    ensures FirstClaimable(PerformAll<P>([], calls), now).Some?
  {
    CallsKeep<P>([], calls);
    assert Claimable(PerformAll<P>([], calls)[i], now);
  }

  lemma CallKeepsBudget<P>(jobs: seq<Job<P>>, call: Call<P>, i: nat)
    requires i < |jobs|
    ensures i < |Perform(jobs, call)| && Perform(jobs, call)[i].maxAttempts == jobs[i].maxAttempts
  {
  }

  /** No call ever gives a job more attempts than it was asked for with. */
  lemma {:induction false} CallsKeepBudget<P>(jobs: seq<Job<P>>, calls: seq<Call<P>>, i: nat)
    requires i < |jobs|
    ensures i < |PerformAll(jobs, calls)| && PerformAll(jobs, calls)[i].maxAttempts == jobs[i].maxAttempts
  {
    if |calls| > 0 {
      CallsKeepBudget(jobs, calls[..|calls| - 1], i);
      CallKeepsBudget(PerformAll(jobs, calls[..|calls| - 1]), calls[|calls| - 1], i);
    }
  }

  /**
   The budget is the exact condition: whatever calls follow, and however late, a job
   asked for with no attempts can never be claimed.
   */
  lemma WedgedExactlyWithoutBudget<P>(jobs: seq<Job<P>>, input: EnqueueInput<P>, now: nat)
    requires FindKey(jobs, InputKey(input)).None?
    ensures Budgeted(input) <==>
              exists calls: seq<Call<P>>, later: nat ::
                |jobs| < |PerformAll(Enqueued(jobs, input, now), calls)|
                && Claimable(PerformAll(Enqueued(jobs, input, now), calls)[|jobs|], later)
  {
    var filed := Enqueued(jobs, input, now);
    if Budgeted(input) {
      assert PerformAll(filed, []) == filed && Claimable(filed[|jobs|], now);
    } else {
      forall calls: seq<Call<P>>, later: nat | |jobs| < |PerformAll(filed, calls)|
        ensures !Claimable(PerformAll(filed, calls)[|jobs|], later)
      {
        CallsKeepBudget(filed, calls, |jobs|);
      }
    }
  }

  /** A repeated enqueue changes nothing, so the first payload wins whatever the repeat carries. */
  lemma EnqueueIsIdempotent<P>(jobs: seq<Job<P>>, first: EnqueueInput<P>, second: EnqueueInput<P>, now: nat, later: nat)
    requires InputKey(first) == InputKey(second)
    ensures Enqueued(Enqueued(jobs, first, now), second, later) == Enqueued(jobs, first, now)
    ensures FindKey(Enqueued(jobs, first, now), InputKey(second)).Some?
  {
    var once := Enqueued(jobs, first, now);
    if FindKey(jobs, InputKey(first)).None? {
      assert JobKey(once[|jobs|]) == InputKey(first);
    }
  }

  /** Every colon of the part is followed, inside it, by a character other than a colon. */
  predicate Clean(part: string) {
    forall i :: 0 <= i < |part| && part[i] == ':' ==> i + 1 < |part| && part[i + 1] != ':'
  }

  /** Where the first `::` of a string is, or its length. */
  function FirstBreak(s: string): (i: nat)
    ensures i <= |s|
    ensures i < |s| ==> i + 1 < |s| && s[i] == ':' && s[i + 1] == ':'
    ensures forall k :: 0 <= k < i && k + 1 < |s| ==> !(s[k] == ':' && s[k + 1] == ':')
  {
    if |s| == 0 then 0
    else if |s| >= 2 && s[0] == ':' && s[1] == ':' then 0
    else 1 + FirstBreak(s[1..])
  }

  /** A part is clean exactly when the first `::` of what is joined to it is the joint. */
  lemma BreaksAtTheJoint(part: string, rest: string)
    ensures FirstBreak(part + "::" + rest) == |part| <==> Clean(part)
  {
    var joined := part + "::" + rest;
    var i := FirstBreak(joined);
    assert joined[|part|] == ':' && joined[|part| + 1] == ':';
    assert forall k :: 0 <= k < |part| ==> joined[k] == part[k];
    if i == |part| {
      forall k | 0 <= k < |part| && part[k] == ':' ensures k + 1 < |part| && part[k + 1] != ':' {
        assert joined[k] == ':' && joined[k + 1] != ':';
      }
    }
  }

  /** What stands before the first `::` is always clean. */
  lemma BeforeBreakIsClean(s: string)
    requires FirstBreak(s) < |s|
    ensures Clean(s[..FirstBreak(s)])
  {
    var i := FirstBreak(s);
    var before := s[..i];
    forall k | 0 <= k < |before| && before[k] == ':' ensures k + 1 < |before| && before[k + 1] != ':' {
      assert before[k] == s[k];
      assert s[k + 1] != ':';
      if k + 1 < i { assert before[k + 1] == s[k + 1]; }
    }
  }

  lemma CutAt(s: string, i: nat)
    requires i + 1 < |s| && s[i] == ':' && s[i + 1] == ':'
    ensures s == s[..i] + "::" + s[i + 2..]
  {
    var joined := s[..i] + "::" + s[i + 2..];
    assert |joined| == |s| && joined[i] == ':' && joined[i + 1] == ':';
  }

  /** Clean parts in front of a joint are told apart. */
  lemma CleanPart(a: string, b: string, x: string, y: string)
    requires Clean(a) && Clean(b) && a + "::" + x == b + "::" + y
    ensures a == b && x == y
  {
    BreaksAtTheJoint(a, x);
    BreaksAtTheJoint(b, y);
    var joined := a + "::" + x;
    assert joined[..|a|] == a && joined[..|b|] == b;
    assert joined[|a| + 2..] == x && joined[|b| + 2..] == y;
  }

  lemma KeyOfJoins(organization: string, kind: string, key: string)
    ensures KeyOf(organization, kind, key) == organization + "::" + (kind + "::" + key)
  {
  }

  /** Two commands with clean organizations and kinds share a job exactly when organization, kind and key all agree. */
  lemma KeyIsInjective(o1: string, k1: string, i1: string, o2: string, k2: string, i2: string)
    requires Clean(o1) && Clean(k1) && Clean(o2) && Clean(k2)
    ensures KeyOf(o1, k1, i1) == KeyOf(o2, k2, i2) <==> (o1 == o2 && k1 == k2 && i1 == i2)
  {
    if KeyOf(o1, k1, i1) == KeyOf(o2, k2, i2) {
      KeyOfJoins(o1, k1, i1);
      KeyOfJoins(o2, k2, i2);
      CleanPart(o1, o2, k1 + "::" + i1, k2 + "::" + i2);
      CleanPart(k1, k2, i1, i2);
    }
  }

  /** Every command shares its job with a command whose organization and kind are clean. */
  lemma SomeCleanCommandShares(o: string, k: string, i: string) returns (o2: string, k2: string, i2: string)
    ensures Clean(o2) && Clean(k2) && KeyOf(o2, k2, i2) == KeyOf(o, k, i)
  {
    var joined := o + "::" + (k + "::" + i);
    KeyOfJoins(o, k, i);
    assert joined[|o|] == ':' && joined[|o| + 1] == ':';
    var at := FirstBreak(joined);
    BeforeBreakIsClean(joined);
    CutAt(joined, at);
    o2 := joined[..at];
    var rest := joined[at + 2..];
    SecondJointRemains(o, k + "::" + i, |k|);
    BeforeBreakIsClean(rest);
    CutAt(rest, FirstBreak(rest));
    k2, i2 := rest[..FirstBreak(rest)], rest[FirstBreak(rest) + 2..];
    KeyOfJoins(o2, k2, i2);
  }

  /** Past the first `::` of two joints there is another. */
  lemma SecondJointRemains(o: string, tail: string, at: nat)
    requires at + 1 < |tail| && tail[at] == ':' && tail[at + 1] == ':'
    ensures var joined := o + "::" + tail;
            && FirstBreak(joined) < |joined|
            && FirstBreak(joined[FirstBreak(joined) + 2..]) < |joined[FirstBreak(joined) + 2..]|
  {
    var joined := o + "::" + tail;
    assert joined[|o|] == ':' && joined[|o| + 1] == ':';
    var first := FirstBreak(joined);
    var rest := joined[first + 2..];
    var there := |o| + 2 + at - (first + 2);
    assert first <= |o|;
    assert rest[there] == tail[at] && rest[there + 1] == tail[at + 1];
  }

  /**
   The exact condition: a command shares its job with no other command of clean parts
   if and only if its own organization and kind are clean.
   */
  lemma KeyIsInjectiveExactly(o: string, k: string, i: string)
    ensures Clean(o) && Clean(k) <==>
              forall o2: string, k2: string, i2: string ::
                Clean(o2) && Clean(k2) && KeyOf(o2, k2, i2) == KeyOf(o, k, i) ==> o2 == o && k2 == k && i2 == i
  {
    if Clean(o) && Clean(k) {
      forall o2: string, k2: string, i2: string | Clean(o2) && Clean(k2) && KeyOf(o2, k2, i2) == KeyOf(o, k, i)
        ensures o2 == o && k2 == k && i2 == i
      {
        KeyIsInjective(o2, k2, i2, o, k, i);
      }
    } else {
      var o2, k2, i2 := SomeCleanCommandShares(o, k, i);
    }
  }

  /** Under an organization that is not clean, every command shares its job with a command of another organization. */
  lemma UncleanOrganizationCollides(o: string, k: string, i: string)
    requires !Clean(o)
    ensures exists o2: string, k2: string, i2: string :: o2 != o && KeyOf(o2, k2, i2) == KeyOf(o, k, i)
  {
    var o2, k2, i2 := SomeCleanCommandShares(o, k, i);
  }

  /** Two such collisions. */
  lemma ColonsCollide()
    ensures KeyOf("a", "b::c", "d") == KeyOf("a::b", "c", "d")
    ensures KeyOf("a:", "b", "c") == KeyOf("a", ":b", "c")
  {
    assert KeyOf("a", "b::c", "d") == "a::b::c::d" == KeyOf("a::b", "c", "d");
    assert KeyOf("a:", "b", "c") == "a:::b::c" == KeyOf("a", ":b", "c");
  }
}
