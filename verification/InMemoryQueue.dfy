/**
 The queue the program holds: two indexes over shared job objects, updated in place.

 The source's `byId` is iterated in insertion order. Its keys are handed out by
 `counter` and nothing is ever removed, so insertion order is the order of the
 numbers `1 .. counter`.
 */
module InMemoryQueue {
  import opened Contracts
  import opened Queue

  class StoredJob<P> {
    const id: nat
    const organization: string
    const kind: string
    const payload: P
    const key: string
    const maxAttempts: int
    const createdAt: nat
    var state: JobState
    var attempts: nat
    var startedAt: Option<nat>
    var finishedAt: Option<nat>
    var lastError: Option<string>
    var leaseExpiresAt: Option<nat>
    var deferredUntil: Option<nat>

    constructor (id: nat, input: EnqueueInput<P>, now: nat)
      ensures View() == NewJob(id, input, now)
      ensures this.id == id
    {
      this.id := id;
      organization := input.organization;
      kind := input.kind;
      payload := input.payload;
      key := input.key;
      maxAttempts := if input.maxAttempts.Some? then input.maxAttempts.value else DEFAULT_MAX_ATTEMPTS;
      createdAt := now;
      state := JobQueued;
      attempts := 0;
      startedAt, finishedAt, lastError, leaseExpiresAt, deferredUntil := None, None, None, None, None;
    }

    /** The key the idempotency index files this job under. It never changes. */
    function Key(): string {
      KeyOf(organization, kind, key)
    }

    function View(): (job: Job<P>)
      reads this
      ensures JobKey(job) == Key() && job.id == id
    {
      Job(id, organization, kind, payload, key, state, attempts, maxAttempts, createdAt,
          startedAt, finishedAt, lastError, leaseExpiresAt, deferredUntil)
    }

    method Take(now: nat, leaseMs: nat)
      modifies this
      ensures View() == TakeJob(old(View()), now, leaseMs)
    {
      state := JobRunning;
      attempts := attempts + 1;
      startedAt := Some(now);
      leaseExpiresAt := Some(now + leaseMs);
      deferredUntil := None;
    }

    method Complete(now: nat)
      modifies this
      ensures View() == CompleteJob(old(View()), now)
    {
      state := JobSucceeded;
      finishedAt := Some(now);
      leaseExpiresAt := None;
      lastError := None;
    }

    method Fail(reason: string, now: nat)
      modifies this
      ensures View() == FailJob(old(View()), reason, now)
    {
      lastError := Some(reason);
      leaseExpiresAt := None;
      if attempts >= maxAttempts {
        state := JobFailed;
        finishedAt := Some(now);
      } else {
        state := JobQueued;
      }
    }

    method Terminate(reason: string, now: nat)
      modifies this
      ensures View() == TerminateJob(old(View()), reason, now)
    {
      state := JobFailed;
      lastError := Some(reason);
      finishedAt := Some(now);
      leaseExpiresAt := None;
    }

    method Defer(reason: string, deferMs: int, now: nat)
      modifies this
      ensures View() == DeferJob(old(View()), reason, deferMs, now)
    {
      state := JobQueued;
      lastError := Some(reason);
      startedAt := None;
      leaseExpiresAt := None;
      attempts := if attempts == 0 then 0 else attempts - 1;
      deferredUntil := if deferMs > 0 then Some(now + deferMs) else None;
    }

    method Reap(now: nat) returns (reaped: bool)
      modifies this
      ensures View() == ReapJob(old(View()), now)
      ensures reaped == Expired(old(View()), now)
    {
      if state != JobRunning || leaseExpiresAt.None? { return false; }
      if leaseExpiresAt.value > now { return false; }
      if attempts >= maxAttempts {
        state := JobFailed;
        finishedAt := Some(now);
        lastError := Some("lease expired and no attempts remain");
      } else {
        state := JobQueued;
        lastError := Some("lease expired");
      }
      leaseExpiresAt := None;
      return true;
    }
  }

  /**
   The two indexes describe the same job objects, one for every number handed
   out. Only fields that never change matter here, so no job update can break it.
   */
  ghost predicate IndexesAgree<P>(byKey: map<string, StoredJob<P>>, byId: map<nat, StoredJob<P>>, counter: nat,
                                  repr: set<object>) {
    && (forall id :: id in byId <==> 1 <= id <= counter)
    && (forall id :: id in byId ==> byId[id] in repr && byId[id].id == id)
    && (forall id :: id in byId ==> byId[id].Key() in byKey && byKey[byId[id].Key()] == byId[id])
    && (forall k :: k in byKey ==> byKey[k].id in byId && byId[byKey[k].id] == byKey[k] && byKey[k].Key() == k)
  }

  lemma FilingAgrees<P>(byKey: map<string, StoredJob<P>>, byId: map<nat, StoredJob<P>>, counter: nat, repr: set<object>,
                        job: StoredJob<P>)
    requires IndexesAgree(byKey, byId, counter, repr)
    requires job.id == counter + 1 && job.Key() !in byKey
    ensures IndexesAgree(byKey[job.Key() := job], byId[job.id := job], job.id, repr + {job})
  {
    var ids := byId[job.id := job];
    forall id | id in ids
      ensures ids[id].Key() in byKey[job.Key() := job] && byKey[job.Key() := job][ids[id].Key()] == ids[id]
    {
      if id != job.id { assert byId[id].Key() != job.Key(); }
    }
  }

  class InMemoryJobQueue<P> {
    var byKey: map<string, StoredJob<P>>
    var byId: map<nat, StoredJob<P>>
    var counter: nat
    ghost var Repr: set<object>  // the stored jobs

    ghost predicate Valid()
      reads this
    {
      this !in Repr && IndexesAgree(byKey, byId, counter, Repr)
    }

    /** The first `n` jobs in enqueue order, as values. */
    ghost function JobsUpTo(n: nat): (jobs: seq<Job<P>>)
      requires Valid() && n <= counter
      reads this, Repr
      ensures |jobs| == n
    {
      if n == 0 then [] else JobsUpTo(n - 1) + [byId[n].View()]
    }

    /** The jobs in enqueue order, as values. */
    ghost function Jobs(): (jobs: seq<Job<P>>)
      requires Valid()
      reads this, Repr
      ensures |jobs| == counter
    {
      JobsUpTo(counter)
    }

    lemma {:induction false} AreAt(n: nat)
      requires Valid() && n <= counter
      ensures forall id :: 1 <= id <= n ==> JobsUpTo(n)[id - 1] == byId[id].View()
    {
      if n > 0 { AreAt(n - 1); }
    }

    lemma JobAt(n: nat, id: nat)
      requires Valid() && 1 <= id <= n <= counter
      ensures JobsUpTo(n)[id - 1] == byId[id].View()
    {
      AreAt(n);
    }

    /** The entries of the jobs before. */
    twostate lemma {:induction false} WereAt(n: nat)
      requires old(Valid()) && n <= old(counter)
      ensures forall id :: 1 <= id <= n ==> old(JobsUpTo(n))[id - 1] == old(byId[id].View())
    {
      if n > 0 {
        WereAt(n - 1);
        assert old(JobsUpTo(n)) == old(JobsUpTo(n - 1)) + [old(byId[n].View())];
      }
    }

    /** Updating the fields of one stored job changes that job's entry and nothing else. */
    twostate lemma Touched(job: StoredJob<P>)
      requires Valid() && unchanged(this)
      requires job.id in byId && byId[job.id] == job
      requires forall id :: id in byId && id != job.id ==> unchanged(byId[id])
      ensures Jobs() == old(Jobs())[job.id - 1 := job.View()]
    {
      WereAt(counter);
      AreAt(counter);
      forall i | 0 <= i < counter ensures Jobs()[i] == old(Jobs())[job.id - 1 := job.View()][i] {
        assert Jobs()[i] == byId[i + 1].View() && old(Jobs())[i] == old(byId[i + 1].View());
      }
    }

    /** Filing a new job leaves the earlier ones as they were. */
    twostate lemma {:induction false} FiledUpTo(n: nat)
      requires Valid() && old(Valid()) && n <= old(counter) <= counter
      requires forall id :: 1 <= id <= n ==> byId[id] == old(byId)[id] && unchanged(byId[id])
      ensures JobsUpTo(n) == old(JobsUpTo(n))
    {
      if n > 0 { FiledUpTo(n - 1); }
    }

    constructor ()
      ensures Valid() && Jobs() == [] && Repr == {}
    {
      byKey, byId, counter, Repr := map[], map[], 0, {};
    }

    /** Put a new job into both indexes under the next number. */
    method File(job: StoredJob<P>)
      requires Valid()
      requires job.id == counter + 1 && job !in Repr && job.Key() !in byKey
      modifies this
      ensures Valid() && counter == job.id && byId == old(byId)[job.id := job]
      ensures byKey == old(byKey)[job.Key() := job] && Repr == old(Repr) + {job}
      ensures Jobs() == old(Jobs()) + [job.View()]
    {
      FilingAgrees(byKey, byId, counter, Repr, job);
      counter := counter + 1;
      byKey := byKey[job.Key() := job];
      byId := byId[counter := job];
      Repr := Repr + {job};
      FiledUpTo(counter - 1);
    }

    method Enqueue(input: EnqueueInput<P>, now: nat) returns (job: StoredJob<P>)
      requires Valid()
      modifies this
      ensures Valid() && fresh(Repr - old(Repr)) && old(Repr) <= Repr
      ensures Jobs() == Enqueued(old(Jobs()), input, now)
      ensures job.id in byId && byId[job.id] == job && job.Key() == InputKey(input)
    {
      var key := InputKey(input);
      ghost var before := Jobs();
      if key in byKey {
        job := byKey[key];
        JobAt(counter, job.id);
        assert JobKey(before[job.id - 1]) == key;
        return;
      }
      forall i | 0 <= i < |before| ensures JobKey(before[i]) != key {
        JobAt(counter, i + 1);
        assert byId[i + 1].Key() in byKey;
      }
      job := new StoredJob(counter + 1, input, now);
      File(job);
    }

    method Claim(now: nat, leaseMs: nat) returns (job: Option<nat>)
      requires Valid()
      modifies Repr
      ensures Valid() && unchanged(this)
      ensures job == FirstClaimable(old(Jobs()), now)
      ensures Jobs() == if job.Some? then old(Jobs())[job.value := TakeJob(old(Jobs())[job.value], now, leaseMs)]
                        else old(Jobs())
    {
      ghost var before := Jobs();
      for id := 1 to counter + 1
        invariant unchanged(this) && Jobs() == before
        invariant forall i :: 0 <= i < id - 1 ==> !Claimable(before[i], now)
      {
        var stored := byId[id];
        JobAt(counter, id);
        if stored.state != JobQueued { continue; }
        if stored.attempts >= stored.maxAttempts { continue; }
        if stored.deferredUntil.Some? && stored.deferredUntil.value > now { continue; }
        FirstClaimableIs(before, now, id - 1);
        label L:
        stored.Take(now, leaseMs);
        Touched@L(stored);
        return Some(id - 1);
      }
      return None;
    }

    method Complete(id: nat, now: nat)
      requires Valid()
      modifies Repr
      ensures Valid() && unchanged(this)
      ensures Jobs() == if 1 <= id <= |old(Jobs())| then old(Jobs())[id - 1 := CompleteJob(old(Jobs())[id - 1], now)]
                        else old(Jobs())
    {
      if id !in byId { return; }
      JobAt(counter, id);
      byId[id].Complete(now);
      Touched(byId[id]);
    }

    method Fail(id: nat, reason: string, now: nat)
      requires Valid()
      modifies Repr
      ensures Valid() && unchanged(this)
      ensures Jobs() ==
                if 1 <= id <= |old(Jobs())| then old(Jobs())[id - 1 := FailJob(old(Jobs())[id - 1], reason, now)]
                        else old(Jobs())
    {
      if id !in byId { return; }
      JobAt(counter, id);
      byId[id].Fail(reason, now);
      Touched(byId[id]);
    }

    method Terminate(id: nat, reason: string, now: nat)
      requires Valid()
      modifies Repr
      ensures Valid() && unchanged(this)
      ensures Jobs() ==
                if 1 <= id <= |old(Jobs())| then old(Jobs())[id - 1 := TerminateJob(old(Jobs())[id - 1], reason, now)]
                        else old(Jobs())
    {
      if id !in byId { return; }
      JobAt(counter, id);
      byId[id].Terminate(reason, now);
      Touched(byId[id]);
    }

    method Defer(id: nat, reason: string, deferMs: int, now: nat)
      requires Valid()
      modifies Repr
      ensures Valid() && unchanged(this)
      ensures Jobs() ==
                if 1 <= id <= |old(Jobs())|
                then old(Jobs())[id - 1 := DeferJob(old(Jobs())[id - 1], reason, deferMs, now)]
                        else old(Jobs())
    {
      if id !in byId { return; }
      JobAt(counter, id);
      byId[id].Defer(reason, deferMs, now);
      Touched(byId[id]);
    }

    /** Reap one job if its lease has lapsed. */
    method ReapOne(id: nat, now: nat) returns (one: bool)
      requires Valid() && 1 <= id <= counter
      modifies Repr
      ensures Valid() && unchanged(this)
      ensures Jobs() == old(Jobs())[id - 1 := ReapJob(old(Jobs())[id - 1], now)]
      ensures one == Expired(old(Jobs())[id - 1], now)
    {
      JobAt(counter, id);
      one := byId[id].Reap(now);
      Touched(byId[id]);
    }

    method ReapExpired(now: nat) returns (reaped: nat)
      requires Valid()
      modifies Repr
      ensures Valid() && unchanged(this)
      ensures Jobs() == ReapAll(old(Jobs()), now)
      ensures reaped == CountExpired(old(Jobs()), |old(Jobs())|, now)
    {
      ghost var before := Jobs();
      reaped := 0;
      for id := 1 to counter + 1
        invariant unchanged(this)
        invariant Jobs() == ReapFirst(before, id - 1, now)
        invariant reaped == CountExpired(before, id - 1, now)
      {
        ReapFirstAt(before, id - 1, now, id - 1);
        var one := ReapOne(id, now);
        assert Jobs() == ReapFirst(before, id, now);
        if one { reaped := reaped + 1; }
      }
      ReapFirstIsAll(before, now);
    }

    method Get(id: nat) returns (job: Option<StoredJob<P>>)
      requires Valid()
      ensures job.Some? <==> 1 <= id <= |Jobs()|
      ensures job.Some? ==> job.value in Repr && job.value.View() == Jobs()[id - 1]
    {
      if id in byId {
        JobAt(counter, id);
        return Some(byId[id]);
      }
      return None;
    }
  }
}
