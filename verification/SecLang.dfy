/**
 The rule language the edge compiles to, and what a list of its directives does
 to one request.

 Rules are read in order, one phase at a time. `chain` binds a rule to the
 directive that follows it, which is then a member of the chain whatever else it
 says. A chain matches when its starter and every member match; a rule's own
 `setvar` runs as soon as that rule is reached and matches. A disruptive match
 ends the request.

 Two readings are taken as given: a transaction variable that was never set reads
 as the empty string, and a header the request does not carry matches nothing.
 Address matching, substring search and the numeric comparison are the engine's
 own and stay uninterpreted.
 */
module SecLang {
  import opened Contracts

  // ---------------------------------------------------------------- patterns

  /** One position of a pattern: this character, or any. An unescaped dot is `AnyChar`. */
  datatype Atom = Lit(c: char) | AnyChar

  /** The two shapes of regular expression the compiler emits: `^\d+$`, and `(^|\.)` atoms `$`. */
  datatype Pattern = AllDigits | AtBoundary(atoms: seq<Atom>)

  predicate AtomMatches(a: Atom, c: char) {
    a.AnyChar? || a.c == c
  }

  predicate AtomsMatch(atoms: seq<Atom>, s: string) {
    |atoms| == |s| && forall i :: 0 <= i < |s| ==> AtomMatches(atoms[i], s[i])
  }

  predicate IsDecimal(s: string) {
    |s| > 0 && forall i :: 0 <= i < |s| ==> '0' <= s[i] <= '9'
  }

  /** The pattern is found in the string: at its start, or right after a dot, and up to its end. */
  predicate PatternMatches(p: Pattern, s: string) {
    match p
    case AllDigits => IsDecimal(s)
    case AtBoundary(atoms) =>
      |atoms| <= |s| && AtomsMatch(atoms, s[|s| - |atoms|..]) && (|atoms| == |s| || s[|s| - |atoms| - 1] == '.')
  }

  // ---------------------------------------------------------------- directives

  datatype TxVar =
    | BotConfirm          // the name the edge forward-confirmed
    | Asn                 // the network the edge resolved the address to
    | BotMarker
    | InternalMarker
    | TrustedMarker
    | RateLimit
    | RateLimitKey
    | ChallengeBrowsers
    | Threshold
    | InboundScore

  datatype Target = RemoteAddr | RequestUri | RequestHeader(name: string) | Tx(v: TxVar)

  datatype Operator =
    | IpMatch(addresses: string)
    | Contains(part: string)
    | StrEq(text: string)
    | BeginsWith(prefix: string)
    | Rx(pattern: Pattern)
    | AtLeast(v: TxVar)

  datatype SetVar = SetVar(v: TxVar, text: string)

  /** A directive. A chain member carries neither id nor phase. */
  datatype Directive =
    | EngineOn
    | Rule(target: Target, op: Operator, negated: bool, id: Option<nat>, phase: Option<nat>, deny: bool, chain: bool,
           setvar: Option<SetVar>)
    | Action(actionId: nat, actionPhase: nat, sets: seq<SetVar>)

  // ---------------------------------------------------------------- requests and engines

  datatype Engine = Engine(
    ipMatch: (string, string) -> bool,
    contains: (string, string) -> bool,
    atLeast: (string, string) -> bool)

  /** A request as the edge hands it over, with the two answers the edge itself looked up. */
  datatype Request = Request(
    address: string,
    uri: string,
    headers: map<string, string>,
    confirmedName: Option<string>,
    asn: Option<string>)

  datatype Verdict = Pass | Denied(id: nat)

  /** Whether the next directive is a member of an open chain, and whether every rule of it has matched so far. */
  datatype Link = Free | Open(matched: bool, deny: bool, id: nat)

  datatype State = State(tx: map<TxVar, string>, verdict: Verdict, link: Link)

  function Start(r: Request): State {
    var confirmed: map<TxVar, string> :=
      if r.confirmedName.Some? then map[BotConfirm := r.confirmedName.value] else map[];
    State(if r.asn.Some? then confirmed[Asn := r.asn.value] else confirmed, Pass, Free)
  }

  function ReadTx(tx: map<TxVar, string>, v: TxVar): string {
    if v in tx then tx[v] else ""
  }

  function ReadTarget(r: Request, tx: map<TxVar, string>, target: Target): Option<string> {
    match target
    case RemoteAddr => Some(r.address)
    case RequestUri => Some(r.uri)
    case RequestHeader(name) => if name in r.headers then Some(r.headers[name]) else None
    case Tx(v) => Some(ReadTx(tx, v))
  }

  predicate OperatorHolds(e: Engine, tx: map<TxVar, string>, op: Operator, value: string) {
    match op
    case IpMatch(addresses) => e.ipMatch(value, addresses)
    case Contains(part) => e.contains(value, part)
    case StrEq(text) => value == text
    case BeginsWith(prefix) => prefix <= value
    case Rx(pattern) => PatternMatches(pattern, value)
    case AtLeast(v) => e.atLeast(value, ReadTx(tx, v))
  }

  predicate Matches(e: Engine, r: Request, tx: map<TxVar, string>, d: Directive)
    requires d.Rule?
  {
    var value := ReadTarget(r, tx, d.target);
    value.Some? && OperatorHolds(e, tx, d.op, value.value) != d.negated
  }

  function Apply(tx: map<TxVar, string>, sets: seq<SetVar>): map<TxVar, string> {
    if |sets| == 0 then tx
    else Apply(tx, sets[..|sets| - 1])[sets[|sets| - 1].v := sets[|sets| - 1].text]
  }

  function ApplyOne(tx: map<TxVar, string>, setvar: Option<SetVar>): map<TxVar, string> {
    if setvar.Some? then tx[setvar.value.v := setvar.value.text] else tx
  }

  /** The chain a rule belongs to: the one already open, or the one it starts. */
  function LinkOf(s: State, d: Directive, phase: nat): Link
    requires d.Rule?
  {
    if s.link.Open? then s.link
    else Open(d.phase == Some(phase), d.deny, if d.id.Some? then d.id.value else 0)
  }

  function Step(e: Engine, r: Request, phase: nat, s: State, d: Directive): State {
    if s.verdict.Denied? then s
    else match d
      case EngineOn => s.(link := Free)
      case Action(_, at, sets) => State(if at == phase then Apply(s.tx, sets) else s.tx, Pass, Free)
      case Rule(_, _, _, _, _, _, chain, setvar) =>
        var link := LinkOf(s, d, phase);
        var hit := link.matched && Matches(e, r, s.tx, d);
        State(if hit then ApplyOne(s.tx, setvar) else s.tx,
              if hit && !chain && link.deny then Denied(link.id) else Pass,
              if chain then Open(hit, link.deny, link.id) else Free)
  }

  function Interpret(e: Engine, r: Request, phase: nat, s: State, ds: seq<Directive>): State {
    if |ds| == 0 then s
    else Step(e, r, phase, Interpret(e, r, phase, s, ds[..|ds| - 1]), ds[|ds| - 1])
  }

  /**
   What becomes of a request. Phase 1 sees it as it arrives; the core rule set then
   leaves its score, and phase 2 inspects what phase 1 let through.
   */
  function Inspect(e: Engine, r: Request, score: string, ds: seq<Directive>): Verdict {
    var first := Interpret(e, r, 1, Start(r), ds);
    if first.verdict.Denied? then first.verdict
    else Interpret(e, r, 2, State(first.tx[InboundScore := score], Pass, Free), ds).verdict
  }

  lemma {:induction false} InterpretAppends(e: Engine, r: Request, phase: nat, s: State, ds: seq<Directive>,
                                            more: seq<Directive>)
    ensures Interpret(e, r, phase, s, ds + more) == Interpret(e, r, phase, Interpret(e, r, phase, s, ds), more)
  {
    if |more| == 0 {
      assert ds + more == ds;
    } else {
      InterpretAppends(e, r, phase, s, ds, more[..|more| - 1]);
      assert (ds + more)[..|ds + more| - 1] == ds + more[..|more| - 1];
    }
  }

  // ---------------------------------------------------------------- well-formed lists

  predicate IsMember(d: Directive) {
    d.Rule? && d.id.None? && d.phase.None?
  }

  predicate Chains(d: Directive) {
    d.Rule? && d.chain
  }

  function IdOf(d: Directive): Option<nat> {
    match d
    case EngineOn => None
    case Rule(_, _, _, id, _, _, _, _) => id
    case Action(id, _, _) => Some(id)
  }

  /** A directive is a chain member exactly when the one before it chains, and no chain is left open at the end. */
  predicate Balanced(ds: seq<Directive>) {
    && (|ds| > 0 ==> !IsMember(ds[0]) && !Chains(ds[|ds| - 1]))
    && forall i :: 0 < i < |ds| ==> (IsMember(ds[i]) <==> Chains(ds[i - 1]))
  }

  /** Ids are unique and rise along the list. */
  predicate IdsRise(ds: seq<Directive>) {
    forall i, j :: 0 <= i < j < |ds| && IdOf(ds[i]).Some? && IdOf(ds[j]).Some? ==> IdOf(ds[i]).value < IdOf(ds[j]).value
  }
}
