/**
 The sweep over stranded rows: which rows it lists, what it decides about one from
 what the engine answers, and what a whole pass does to the rows.
 */
module Reconcile {
  import opened Contracts
  import opened Deployments

  /** A stranded row as the sweep listed it. */
  datatype Stranded = Stranded(key: Key, row: Row)

  /** A row the sweep may list: not settled, and older than the cutoff. */
  predicate IsStranded(row: Row, now: nat, staleAfterMs: nat) {
    InFlight(row.status) && row.createdAt + staleAfterMs < now
  }

  /** `list` is an oldest-first listing of the stranded rows, cut at the limit. */
  ghost predicate StrandedListing(rows: map<Key, Row>, now: nat, staleAfterMs: nat, limit: nat, list: seq<Stranded>) {
    && |list| <= limit
    && (forall i :: 0 <= i < |list| ==>
          list[i].key in rows && list[i].row == rows[list[i].key] && IsStranded(list[i].row, now, staleAfterMs))
    && (forall i, j :: 0 <= i < j < |list| ==>
          list[i].key != list[j].key && list[i].row.createdAt <= list[j].row.createdAt)
    && (forall k :: k in rows && IsStranded(rows[k], now, staleAfterMs) ==>
          (exists i :: 0 <= i < |list| && list[i].key == k)
          || (|list| == limit && forall i :: 0 <= i < |list| ==> list[i].row.createdAt <= rows[k].createdAt))
  }

  lemma {:induction false} OldestExists(rows: map<Key, Row>, keys: set<Key>)
    requires keys != {} && keys <= rows.Keys
    ensures exists oldest :: oldest in keys && forall k :: k in keys ==> rows[oldest].createdAt <= rows[k].createdAt
    decreases keys
  {
    var one :| one in keys;
    if keys == {one} {
      assert forall k :: k in keys ==> k == one;
    } else {
      OldestExists(rows, keys - {one});
      var best :| best in keys - {one} && forall k :: k in keys - {one} ==> rows[best].createdAt <= rows[k].createdAt;
      var oldest := if rows[one].createdAt <= rows[best].createdAt then one else best;
      forall k | k in keys ensures rows[oldest].createdAt <= rows[k].createdAt {
        if k != one { assert k in keys - {one}; }
      }
    }
  }

  /** The store's listing: the oldest first, up to the limit. */
  method ListStranded(rows: map<Key, Row>, now: nat, staleAfterMs: nat, limit: nat) returns (list: seq<Stranded>)
    ensures StrandedListing(rows, now, staleAfterMs, limit, list)
  {
    list := [];
    var rest := set k | k in rows && IsStranded(rows[k], now, staleAfterMs);
    while |list| < limit && rest != {}
      invariant |list| <= limit
      invariant forall k :: k in rest ==> k in rows && IsStranded(rows[k], now, staleAfterMs)
      invariant forall i :: 0 <= i < |list| ==>
                  list[i].key in rows && list[i].row == rows[list[i].key] && IsStranded(list[i].row, now, staleAfterMs)
      invariant forall i :: 0 <= i < |list| ==> list[i].key !in rest
      invariant forall i, k :: 0 <= i < |list| && k in rest ==> list[i].row.createdAt <= rows[k].createdAt
      invariant forall i, j :: 0 <= i < j < |list| ==>
                  list[i].key != list[j].key && list[i].row.createdAt <= list[j].row.createdAt
      invariant forall k :: k in rows && IsStranded(rows[k], now, staleAfterMs) ==>
                  k in rest || exists i :: 0 <= i < |list| && list[i].key == k
      decreases rest
    {
      OldestExists(rows, rest);
      var oldest :| oldest in rest && forall k :: k in rest ==> rows[oldest].createdAt <= rows[k].createdAt;
      ghost var before := list;
      list := list + [Stranded(oldest, rows[oldest])];
      rest := rest - {oldest};
      assert list[|before|].key == oldest && forall i :: 0 <= i < |before| ==> list[i] == before[i];
    }
  }

  /** What the sweep decides about one row: leave it, or write this. */
  datatype SweepDecision = Leave | Settle(status: EngineStatus, url: Option<string>, reason: Option<string>)

  function UnconfirmedReason(status: EngineStatus, detail: string): string {
    "The deployment was still " + StatusText(status) + " past the ceiling and the engine could not confirm the build: "
      + detail
  }

  predicate PastCeiling(row: Row, now: nat, hardCeilingMs: nat) {
    now - row.createdAt >= hardCeilingMs
  }

  /** The reference the sweep asks the engine about: the run's own handle first, the application second. */
  function SweepRef(row: Row): Option<ProviderRef> {
    if Present(row.handle) then Some(ProviderRef(DeploymentRef, row.handle.value))
    else if Present(row.app) then Some(ProviderRef(ApplicationRef, row.app.value))
    else None
  }

  function DecideUnreached(row: Row, now: nat, hardCeilingMs: nat): SweepDecision {
    if !PastCeiling(row, now, hardCeilingMs) then Leave
    else Settle(Failed, None, Some(UnconfirmedReason(row.status, "no engine handle was ever recorded.")))
  }

  function DecideAnswered(row: Row, answer: AdapterResult<DeploymentState>, now: nat,
                          hardCeilingMs: nat): SweepDecision {
    match answer
    case Ok(_, state) =>
      if InFlight(state.status) then
        if !PastCeiling(row, now, hardCeilingMs) then Leave
        else Settle(Failed, None, Some(UnconfirmedReason(row.status, "the engine still reports it in flight.")))
      else Settle(state.status, state.url, None)
    case Err(status, reason) =>
      if status == NotConfigured then Settle(Failed, None, Some("The engine has no record of this build: " + reason))
      else if !PastCeiling(row, now, hardCeilingMs) then Leave
      else Settle(Failed, None, Some(UnconfirmedReason(row.status, reason)))
  }

  /** The row after the sweep's write: the handles are those the sweep listed, set or left. */
  function SettledRow(current: Row, listed: Row, d: SweepDecision, at: nat): Row {
    match d
    case Leave => current
    case Settle(status, url, reason) => SettleRow(current, status, url, reason, listed.app, listed.handle, None, at)
  }

  /** A decision the sweep may reach about a row: with nothing to ask about, or from some answer of the engine's. */
  ghost predicate Reachable(row: Row, d: SweepDecision, at: nat, hardCeilingMs: nat) {
    if SweepRef(row).None? then d == DecideUnreached(row, at, hardCeilingMs)
    else exists answer :: d == DecideAnswered(row, answer, at, hardCeilingMs)
  }

  /** The engine itself ended the build: it reported a settled state, or has no record of it. */
  predicate EngineEnded(answer: AdapterResult<DeploymentState>) {
    if answer.Ok? then !InFlight(answer.value.status) else answer.status == NotConfigured
  }

  /**
   A row past the hard ceiling is settled whatever the engine says, and settled
   as failed unless the engine reported a settled state of its own. A younger
   row is settled only on an answer that ended the build, and on every such answer.
   */
  lemma SweepDecides(row: Row, d: SweepDecision, at: nat, hardCeilingMs: nat)
    requires Reachable(row, d, at, hardCeilingMs)
    ensures PastCeiling(row, at, hardCeilingMs) ==> d.Settle?
    ensures d.Settle? ==> !InFlight(d.status)
    ensures forall answer :: EngineEnded(answer) ==> DecideAnswered(row, answer, at, hardCeilingMs).Settle?
    ensures d.Settle? && !PastCeiling(row, at, hardCeilingMs) ==>
              && Addressable(row)
              && exists answer: AdapterResult<DeploymentState> :: EngineEnded(answer) && Heeds(d, answer)
    ensures d.Settle? && d.status != Failed ==>
              && Addressable(row)
              && exists answer: AdapterResult<DeploymentState> ::
                   answer.Ok? && EngineEnded(answer) && Heeds(d, answer)
  {
    if SweepRef(row).Some? {
      var answer :| d == DecideAnswered(row, answer, at, hardCeilingMs);
      DecisionHeeds(row, answer, at, hardCeilingMs);
      if d.Settle? && !PastCeiling(row, at, hardCeilingMs) {
        assert EngineEnded(answer);
      }
    }
  }

  /** There is something to ask the engine about. */
  predicate Addressable(row: Row) {
    Present(row.handle) || Present(row.app)
  }

  /** The text ends with this part. */
  predicate Carries(text: string, part: string) {
    |part| <= |text| && text[|text| - |part|..] == part
  }

  /**
   What is written is what the engine said: its settled state and address, without a
   reason; or a failure without an address, with a reason that carries its refusal.
   */
  predicate Heeds(d: SweepDecision, answer: AdapterResult<DeploymentState>) {
    d.Settle? ==> WritesAnswer(d, answer)
  }

  predicate WritesAnswer(d: SweepDecision, answer: AdapterResult<DeploymentState>)
    requires d.Settle?
  {
    if answer.Ok? && answer.value.status !in {Pending, Running} then
      d.status == answer.value.status && d.url == answer.value.url && d.reason.None?
    else
      && d.status == Failed && d.url.None? && d.reason.Some?
      && (answer.Err? ==> Carries(d.reason.value, answer.reason))
  }

  lemma DecisionHeeds(row: Row, answer: AdapterResult<DeploymentState>, at: nat, hardCeilingMs: nat)
    ensures Heeds(DecideAnswered(row, answer, at, hardCeilingMs), answer)
  {
    if answer.Err? {
      var before := "The deployment was still " + StatusText(row.status)
        + " past the ceiling and the engine could not confirm the build: ";
      assert Carries(before + answer.reason, answer.reason);
      assert Carries("The engine has no record of this build: " + answer.reason, answer.reason);
    }
  }

  /** The row shows what the engine answered, and keeps its handles. */
  predicate SettledBy(before: Row, after: Row, answer: AdapterResult<DeploymentState>, at: nat) {
    && after.app == before.app && after.handle == before.handle && after.build == before.build
    && if answer.Ok? && answer.value.status !in {Pending, Running}
       then Written(before, after, answer.value.status, answer.value.url, None, at)
       else
         && after.failureReason.Some? && Written(before, after, Failed, None, after.failureReason, at)
         && (answer.Err? ==> Carries(after.failureReason.value, answer.reason))
  }

  /** The row has been given up on: failed, with a reason and no address. */
  predicate GivenUp(before: Row, after: Row, at: nat) {
    && after.app == before.app && after.handle == before.handle && after.build == before.build
    && after.failureReason.Some? && Written(before, after, Failed, None, after.failureReason, at)
  }

  /** The row is as some answer of the engine's that ended the build leaves it. */
  ghost predicate EndedByTheEngine(before: Row, after: Row, at: nat) {
    && Addressable(before)
    && exists answer: AdapterResult<DeploymentState> :: EngineEnded(answer) && SettledBy(before, after, answer, at)
  }

  lemma SettledAsHeeded(row: Row, d: SweepDecision, answer: AdapterResult<DeploymentState>, at: nat)
    requires d.Settle? && Heeds(d, answer)
    ensures SettledBy(row, SettledRow(row, row, d, at), answer, at)
  {
  }

  /** A row the sweep settles is as the engine's answer leaves it, or given up on. */
  lemma SettledRowShows(row: Row, d: SweepDecision, at: nat, hardCeilingMs: nat)
    requires Reachable(row, d, at, hardCeilingMs) && d.Settle?
    ensures var after := SettledRow(row, row, d, at);
            && (EndedByTheEngine(row, after, at) || (PastCeiling(row, at, hardCeilingMs) && GivenUp(row, after, at)))
  {
    if SweepRef(row).Some? {
      var answer :| d == DecideAnswered(row, answer, at, hardCeilingMs);
      DecisionHeeds(row, answer, at, hardCeilingMs);
      SettledAsHeeded(row, d, answer, at);
    }
  }

  function KeysOf(list: seq<Stranded>): (keys: set<Key>)
    ensures forall i :: 0 <= i < |list| ==> list[i].key in keys
    ensures forall k :: k in keys ==> exists i :: 0 <= i < |list| && list[i].key == k
    ensures (forall i, j :: 0 <= i < j < |list| ==> list[i].key != list[j].key) ==> |keys| == |list|
  {
    if |list| == 0 then {}
    else
      var before := KeysOf(list[..|list| - 1]);
      before + {list[|list| - 1].key}
  }

  /** How many rows are stranded. */
  ghost function Backlog(rows: map<Key, Row>, now: nat, staleAfterMs: nat): nat {
    |set k | k in rows && IsStranded(rows[k], now, staleAfterMs)|
  }

  /** A limit that covers the backlog leaves no stranded row off the listing. */
  lemma ListingCovers(rows: map<Key, Row>, now: nat, staleAfterMs: nat, limit: nat, list: seq<Stranded>, key: Key)
    requires StrandedListing(rows, now, staleAfterMs, limit, list)
    requires Backlog(rows, now, staleAfterMs) <= limit
    requires key in rows && IsStranded(rows[key], now, staleAfterMs)
    ensures exists i :: 0 <= i < |list| && list[i].key == key
  {
    var stranded := set k | k in rows && IsStranded(rows[k], now, staleAfterMs);
    var keys := KeysOf(list);
    assert keys <= stranded;
    if key !in keys {
      SubsetCardinality(keys + {key}, stranded);
    }
  }

  lemma {:induction false} SubsetCardinality<T>(small: set<T>, large: set<T>)
    requires small <= large
    ensures |small| <= |large|
  {
    if small != {} {
      var one :| one in small;
      SubsetCardinality(small - {one}, large - {one});
    }
  }

  /** A listing read from these rows: each row once, and still in flight. */
  ghost predicate ListedFrom(rows: map<Key, Row>, list: seq<Stranded>) {
    && (forall i :: 0 <= i < |list| ==>
          list[i].key in rows && list[i].row == rows[list[i].key] && InFlight(list[i].row.status))
    && (forall i, j :: 0 <= i < j < |list| ==> list[i].key != list[j].key)
  }

  /** The rows after the first `|ds|` listed ones have been visited with these decisions. */
  function SweptRows(before: map<Key, Row>, list: seq<Stranded>, ds: seq<SweepDecision>, at: nat): map<Key, Row>
    requires |ds| <= |list|
  {
    if |ds| == 0 then before
    else
      var last := list[|ds| - 1];
      SweptRows(before, list, ds[..|ds| - 1], at)[last.key := SettledRow(last.row, last.row, ds[|ds| - 1], at)]
  }

  function CountSettled(ds: seq<SweepDecision>): nat {
    if |ds| == 0 then 0 else CountSettled(ds[..|ds| - 1]) + (if ds[|ds| - 1].Settle? then 1 else 0)
  }

  /** Every decision is one its row allows. */
  ghost predicate AllReachable(list: seq<Stranded>, ds: seq<SweepDecision>, at: nat, hardCeilingMs: nat) {
    |ds| <= |list| && forall i :: 0 <= i < |ds| ==> Reachable(list[i].row, ds[i], at, hardCeilingMs)
  }

  /** Each visited row ends as its own decision says, and no other row moves. */
  lemma {:induction false} SweptRowsAt(before: map<Key, Row>, list: seq<Stranded>, ds: seq<SweepDecision>, at: nat)
    requires ListedFrom(before, list) && |ds| <= |list|
    ensures SweptRows(before, list, ds, at).Keys == before.Keys
    ensures forall i :: 0 <= i < |ds| ==>
              SweptRows(before, list, ds, at)[list[i].key] == SettledRow(list[i].row, list[i].row, ds[i], at)
    ensures forall k :: k in before && (forall i :: 0 <= i < |ds| ==> list[i].key != k) ==>
              SweptRows(before, list, ds, at)[k] == before[k]
  {
    if |ds| > 0 {
      SweptRowsAt(before, list, ds[..|ds| - 1], at);
    }
  }

  /** One more row visited. */
  lemma SweptOneMore(before: map<Key, Row>, list: seq<Stranded>, ds: seq<SweepDecision>, d: SweepDecision, at: nat,
                     hardCeilingMs: nat)
    requires ListedFrom(before, list) && |ds| < |list| && AllReachable(list, ds, at, hardCeilingMs)
    requires Reachable(list[|ds|].row, d, at, hardCeilingMs)
    ensures AllReachable(list, ds + [d], at, hardCeilingMs)
    ensures CountSettled(ds + [d]) == CountSettled(ds) + if d.Settle? then 1 else 0
    ensures var row, rows := list[|ds|], SweptRows(before, list, ds, at);
            SweptRows(before, list, ds + [d], at) ==
              if d.Settle? then rows[row.key := SettledRow(row.row, row.row, d, at)] else rows
  {
    assert (ds + [d])[..|ds|] == ds;
    SweptRowsAt(before, list, ds, at);
    var rows := SweptRows(before, list, ds, at);
    assert rows == rows[list[|ds|].key := list[|ds|].row];
  }

  /** The rows settled by these decisions. */
  function SettledKeys(list: seq<Stranded>, ds: seq<SweepDecision>): (keys: set<Key>)
    requires |ds| <= |list|
    ensures forall k :: k in keys <==> exists i :: 0 <= i < |ds| && ds[i].Settle? && list[i].key == k
    ensures (forall i, j :: 0 <= i < j < |list| ==> list[i].key != list[j].key) ==> |keys| == CountSettled(ds)
  {
    if |ds| == 0 then {}
    else
      var n := |ds| - 1;
      var before := SettledKeys(list, ds[..n]);
      assert forall i :: 0 <= i < n ==> ds[..n][i] == ds[i];
      if ds[n].Settle? then before + {list[n].key} else before
  }

  lemma SettlingChanges(row: Row, d: SweepDecision, at: nat, hardCeilingMs: nat)
    requires InFlight(row.status) && Reachable(row, d, at, hardCeilingMs)
    ensures d.Settle? <==> SettledRow(row, row, d, at) != row
  {
    SweepDecides(row, d, at, hardCeilingMs);
  }

  /** The rows a sweep changes, and only they, are counted. */
  lemma SettledAreTheChanged(before: map<Key, Row>, list: seq<Stranded>, ds: seq<SweepDecision>, at: nat,
                             hardCeilingMs: nat)
    requires ListedFrom(before, list) && AllReachable(list, ds, at, hardCeilingMs)
    ensures SweptRows(before, list, ds, at).Keys == before.Keys
    ensures |set k | k in before && SweptRows(before, list, ds, at)[k] != before[k]| == CountSettled(ds)
  {
    SweptRowsAt(before, list, ds, at);
    var after := SweptRows(before, list, ds, at);
    forall i | 0 <= i < |ds| ensures ds[i].Settle? <==> after[list[i].key] != before[list[i].key] {
      SettlingChanges(list[i].row, ds[i], at, hardCeilingMs);
    }
    var changed := set k | k in before && after[k] != before[k];
    assert changed == SettledKeys(list, ds);
  }

  /**
   A sweep that visits its whole listing, on one row. A row it did not list is
   untouched. A stranded row past the hard ceiling is settled whatever the engine
   answered, provided the limit covers the backlog. A younger one is as it was, or
   is settled by an answer of the engine's that ended the build.
   */
  lemma SweepOnRow(before: map<Key, Row>, list: seq<Stranded>, ds: seq<SweepDecision>, at: nat,
                   staleAfterMs: nat, hardCeilingMs: nat, limit: nat, key: Key)
    requires StrandedListing(before, at, staleAfterMs, limit, list) && |ds| == |list|
    requires AllReachable(list, ds, at, hardCeilingMs) && key in before
    ensures key in SweptRows(before, list, ds, at)
    ensures var row, after := before[key], SweptRows(before, list, ds, at)[key];
            && (!IsStranded(row, at, staleAfterMs) ==> after == row)
            && (IsStranded(row, at, staleAfterMs) && PastCeiling(row, at, hardCeilingMs)
                && Backlog(before, at, staleAfterMs) <= limit
                ==> EndedByTheEngine(row, after, at) || GivenUp(row, after, at))
            && (after != row && !PastCeiling(row, at, hardCeilingMs) ==> EndedByTheEngine(row, after, at))
  {
    SweptRowsAt(before, list, ds, at);
    if i :| 0 <= i < |ds| && list[i].key == key {
      SweepDecides(list[i].row, ds[i], at, hardCeilingMs);
      if ds[i].Settle? { SettledRowShows(list[i].row, ds[i], at, hardCeilingMs); }
    } else if IsStranded(before[key], at, staleAfterMs) && Backlog(before, at, staleAfterMs) <= limit {
      ListingCovers(before, at, staleAfterMs, limit, list, key);
      assert false;
    }
  }
}
