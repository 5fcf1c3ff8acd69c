/**
 What a policy means for a request, said without rules, chains or markers, and the
 proof that the compiled directives mean the same.
 */
module EdgeMeaning {
  import opened Contracts
  import opened EdgeInput
  import opened SecLang
  import opened EdgeCompiler

  // ---------------------------------------------------------------- the reference

  predicate EndsWith(s: string, tail: string) {
    |tail| <= |s| && s[|s| - |tail|..] == tail
  }

  /** A name is the suffix itself or a name under it. */
  predicate Under(name: string, suffix: string) {
    name == suffix || EndsWith(name, "." + suffix)
  }

  predicate HeaderContains(e: Engine, r: Request, header: string, part: string) {
    header in r.headers && e.contains(r.headers[header], part)
  }

  /** The request claims to be this bot, and the name the edge confirmed for its address agrees. */
  predicate IsBot(e: Engine, r: Request, bot: VerifiedBot) {
    && ValidBot(bot)
    && HeaderContains(e, r, USER_AGENT, bot.userAgent)
    && r.confirmedName.Some? && Under(r.confirmedName.value, bot.confirmSuffix)
  }

  predicate ConfirmedBot(e: Engine, r: Request, bots: seq<VerifiedBot>) {
    exists i :: 0 <= i < |bots| && IsBot(e, r, bots[i])
  }

  predicate Internal(r: Request) {
    INTERNAL_REQUEST_HEADER in r.headers && r.headers[INTERNAL_REQUEST_HEADER] == "1"
  }

  predicate Trusted(e: Engine, r: Request, sources: seq<TrustedSource>) {
    exists i :: 0 <= i < |sources| && ValidSource(sources[i]) && e.ipMatch(r.address, sources[i].value)
  }

  /**
   The request is exempt from the deny list: by the curated directory, the operator's
   own, a probe's header or a trusted address.
   */
  predicate Excused(e: Engine, r: Request, input: CompileInput) {
    || ConfirmedBot(e, r, VERIFIED_BOTS) || ConfirmedBot(e, r, input.botAllowList)
    || Internal(r) || Trusted(e, r, input.trustedSources)
  }

  lemma ConfirmedByEither(e: Engine, r: Request, a: seq<VerifiedBot>, b: seq<VerifiedBot>)
    ensures ConfirmedBot(e, r, a + b) <==> ConfirmedBot(e, r, a) || ConfirmedBot(e, r, b)
  {
    if i :| 0 <= i < |a| && IsBot(e, r, a[i]) { assert (a + b)[i] == a[i]; }
    if i :| 0 <= i < |b| && IsBot(e, r, b[i]) { assert (a + b)[|a| + i] == b[i]; }
  }

  predicate DenyHit(e: Engine, r: Request, rule: DenyRule) {
    && ValidDeny(rule)
    && match rule.kind
       case DenyIp => e.ipMatch(r.address, rule.value)
       case DenyCidr => e.ipMatch(r.address, rule.value)
       case DenyAsn => r.asn == Some(rule.value)
       case DenyUserAgent => HeaderContains(e, r, USER_AGENT, rule.value)
  }

  /** The first valid rule that matches. */
  function FirstHit(e: Engine, r: Request, rules: seq<DenyRule>): (hit: Option<nat>)
    ensures hit.None? <==> forall i :: 0 <= i < |rules| ==> !DenyHit(e, r, rules[i])
    ensures hit.Some? ==> hit.value < |rules| && DenyHit(e, r, rules[hit.value])
    ensures hit.Some? ==> forall i :: 0 <= i < hit.value ==> !DenyHit(e, r, rules[i])
  {
    if |rules| == 0 then None
    else
      var before := FirstHit(e, r, rules[..|rules| - 1]);
      if before.Some? then before
      else if DenyHit(e, r, rules[|rules| - 1]) then Some(|rules| - 1) else None
  }

  function Count<T>(items: seq<T>, valid: T -> bool): nat {
    if |items| == 0 then 0 else Count(items[..|items| - 1], valid) + if valid(items[|items| - 1]) then 1 else 0
  }

  function FirstDenyId(input: CompileInput): nat {
    10 + Count(BotsOf(input), ValidBot) + 1 + Count(input.trustedSources, ValidSource)
  }

  /** The deny list's say: the first matching valid rule denies, unless the request is excused. */
  function DenyVerdict(e: Engine, r: Request, input: CompileInput): Verdict {
    var hit := FirstHit(e, r, input.denyList);
    if Excused(e, r, input) || hit.None? then Pass
    else Verdict.Denied(FirstDenyId(input) + Count(input.denyList[..hit.value], ValidDeny))
  }

  function WafId(input: CompileInput): nat {
    FirstDenyId(input) + Count(input.denyList, ValidDeny) + Count(input.rateLimits, ValidRate)
      + (if input.attackMode then 1 else 0) + 1
  }

  /** The anomaly score at which a risk level stops a request. */
  function StopsAt(risk: RiskLevel): string {
    match risk
    case Critical => "1"
    case High => "3"
    case Medium => "5"
    case Low => "5"
  }

  /**
   The request's anomaly score has reached the policy's threshold, and the policy does
   more than let it pass or log it.
   */
  predicate WafHit(e: Engine, score: string, input: CompileInput) {
    && input.policy.Some? && input.policy.value.action !in {Allow, Log}
    && e.atLeast(score, StopsAt(input.policy.value.riskLevel))
  }

  lemma ThresholdStops(policy: EdgePolicy)
    ensures Decimal(ThresholdOf(policy.riskLevel)) == StopsAt(policy.riskLevel)
    ensures Denies(policy.action) <==> policy.action !in {Allow, Log}
  {
  }

  /** What the policy says about a request. */
  function Meaning(e: Engine, r: Request, score: string, input: CompileInput): Verdict {
    var first := DenyVerdict(e, r, input);
    if first.Denied? then first
    else if WafHit(e, score, input) then Verdict.Denied(WafId(input)) else Pass
  }

  // ---------------------------------------------------------------- patterns and numbers

  /** The number a string of digits spells. */
  function Spelled(s: string): nat
    requires forall i :: 0 <= i < |s| ==> '0' <= s[i] <= '9'
  {
    if |s| == 0 then 0 else 10 * Spelled(s[..|s| - 1]) + (s[|s| - 1] as int - '0' as int)
  }

  /** Numbers are written in decimal. */
  lemma {:induction false} DecimalSpells(n: nat)
    ensures (forall i :: 0 <= i < |Decimal(n)| ==> '0' <= Decimal(n)[i] <= '9') && Spelled(Decimal(n)) == n
  {
    if n >= 10 {
      DecimalSpells(n / 10);
      assert Decimal(n)[..|Decimal(n)| - 1] == Decimal(n / 10);
    } else {
      assert Decimal(n)[..0] == "";
    }
  }

  lemma {:induction false} DecimalIsDecimal(n: nat)
    ensures IsDecimal(Decimal(n))
  {
    if n >= 10 { DecimalIsDecimal(n / 10); }
  }

  /**
   The pattern accepts the suffix and the names under it, and nothing else:
   `evilgooglebot.com` is not under `googlebot.com`.
   */
  lemma PatternIsUnder(suffix: string, name: string)
    ensures PatternMatches(BotConfirmPattern(suffix), name) <==> Under(name, suffix)
  {
    if |suffix| <= |name| {
      var tail := name[|name| - |suffix|..];
      assert AtomsMatch(Escaped(suffix), tail) <==> tail == suffix;
      if |suffix| < |name| {
        assert name[|name| - |suffix| - 1..] == [name[|name| - |suffix| - 1]] + tail;
        assert ("." + suffix)[1..] == suffix;
        assert EndsWith(name, "." + suffix) <==> name[|name| - |suffix| - 1] == '.' && tail == suffix;
      }
    }
  }

  lemma HostsAreNotEmpty(s: string)
    requires IsHost(s)
    ensures s != ""
  {
  }

  // ---------------------------------------------------------------- running the emitted directives

  function TextOf(s: Option<string>): string {
    if s.Some? then s.value else ""
  }

  /** Between steps: nothing denied, no chain open, and the markers say what has matched so far. */
  predicate Standing(s: State, r: Request, bot: bool, internally: bool, trusted: bool) {
    && s.verdict == Pass && s.link == Free
    && ReadTx(s.tx, BotConfirm) == TextOf(r.confirmedName) && ReadTx(s.tx, Asn) == TextOf(r.asn)
    && (IsDecimal(ReadTx(s.tx, BotMarker)) <==> bot)
    && (ReadTx(s.tx, InternalMarker) == "1" <==> internally)
    && (ReadTx(s.tx, TrustedMarker) == "1" <==> trusted)
    && RateLimit !in s.tx && RateLimitKey !in s.tx
  }

  lemma RunOne(e: Engine, r: Request, phase: nat, s: State, a: Directive)
    ensures Interpret(e, r, phase, s, [a]) == Step(e, r, phase, s, a)
  {
    assert [a][..0] == [];
  }

  lemma RunTwo(e: Engine, r: Request, phase: nat, s: State, a: Directive, b: Directive)
    ensures Interpret(e, r, phase, s, [a, b]) == Step(e, r, phase, Step(e, r, phase, s, a), b)
  {
    RunOne(e, r, phase, s, a);
    assert [a, b][..1] == [a];
  }

  lemma RunFour(e: Engine, r: Request, phase: nat, s: State, a: Directive, b: Directive, c: Directive, d: Directive)
    ensures Interpret(e, r, phase, s, [a, b, c, d])
         == Step(e, r, phase, Step(e, r, phase, Step(e, r, phase, Step(e, r, phase, s, a), b), c), d)
  {
    RunTwo(e, r, phase, s, a, b);
    assert [a, b, c][..2] == [a, b];
    assert [a, b, c, d][..3] == [a, b, c];
  }

  lemma {:induction false} Stopped(e: Engine, r: Request, phase: nat, s: State, ds: seq<Directive>)
    requires s.verdict.Denied?
    ensures Interpret(e, r, phase, s, ds) == s
  {
    if |ds| > 0 { Stopped(e, r, phase, s, ds[..|ds| - 1]); }
  }

  lemma RunHeader(e: Engine, r: Request, input: CompileInput)
    ensures Standing(Interpret(e, r, 1, Start(r), EmitHeader(input.route)), r, false, false, false)
  {
    var ds := EmitHeader(input.route);
    RunTwo(e, r, 1, Start(r), ds[0], ds[1]);
  }

  lemma RunBot(e: Engine, r: Request, s: State, id: nat, bot: VerifiedBot, b: bool, i: bool, t: bool)
    requires Standing(s, r, b, i, t) && ValidBot(bot)
    ensures Standing(Interpret(e, r, 1, s, EmitBot(id, bot)), r, b || IsBot(e, r, bot), i, t)
  {
    var ds := EmitBot(id, bot);
    RunTwo(e, r, 1, s, ds[0], ds[1]);
    DecimalIsDecimal(id);
    PatternIsUnder(bot.confirmSuffix, TextOf(r.confirmedName));
    HostsAreNotEmpty(bot.confirmSuffix);
  }

  lemma RunInternal(e: Engine, r: Request, s: State, id: nat, b: bool, t: bool)
    requires Standing(s, r, b, false, t)
    ensures Standing(Interpret(e, r, 1, s, EmitInternal(id)), r, b, Internal(r), t)
  {
    RunOne(e, r, 1, s, EmitInternal(id)[0]);
  }

  lemma RunTrusted(e: Engine, r: Request, s: State, id: nat, source: TrustedSource, b: bool, i: bool, t: bool)
    requires Standing(s, r, b, i, t)
    ensures Standing(Interpret(e, r, 1, s, EmitTrusted(id, source)), r, b, i, t || e.ipMatch(r.address, source.value))
  {
    RunOne(e, r, 1, s, EmitTrusted(id, source)[0]);
  }

  lemma RunDeny(e: Engine, r: Request, s: State, id: nat, rule: DenyRule, b: bool, i: bool, t: bool)
    requires Standing(s, r, b, i, t) && ValidDeny(rule)
    ensures var after := Interpret(e, r, 1, s, EmitDeny(id, rule));
            if DenyHit(e, r, rule) && !b && !i && !t then after.verdict == Verdict.Denied(id)
            else Standing(after, r, b, i, t)
  {
    var ds := EmitDeny(id, rule);
    RunFour(e, r, 1, s, ds[0], ds[1], ds[2], ds[3]);
  }

  // ---------------------------------------------------------------- the sections

  lemma {:induction false} BotsMean(e: Engine, r: Request, d: Draft, bots: seq<VerifiedBot>)
    requires Standing(Interpret(e, r, 1, Start(r), d.directives), r, false, false, false)
    ensures Standing(Interpret(e, r, 1, Start(r), AddBots(d, bots).directives), r, ConfirmedBot(e, r, bots), false,
                     false)
    ensures AddBots(d, bots).nextId == d.nextId + Count(bots, ValidBot)
  {
    if |bots| > 0 {
      var init, last := bots[..|bots| - 1], bots[|bots| - 1];
      BotsMean(e, r, d, init);
      var before := AddBots(d, init);
      var s := Interpret(e, r, 1, Start(r), before.directives);
      if ValidBot(last) {
        RunBot(e, r, s, before.nextId, last, ConfirmedBot(e, r, init), false, false);
        InterpretAppends(e, r, 1, Start(r), before.directives, EmitBot(before.nextId, last));
      }
      ConfirmedGrows(e, r, init, last);
      assert init + [last] == bots;
    }
  }

  lemma ConfirmedGrows(e: Engine, r: Request, bots: seq<VerifiedBot>, last: VerifiedBot)
    ensures ConfirmedBot(e, r, bots + [last]) <==> ConfirmedBot(e, r, bots) || IsBot(e, r, last)
  {
    var all := bots + [last];
    assert all[|bots|] == last;
    if ConfirmedBot(e, r, bots) {
      var i :| 0 <= i < |bots| && IsBot(e, r, bots[i]);
      assert IsBot(e, r, all[i]);
    }
  }

  lemma {:induction false} SourcesMean(e: Engine, r: Request, d: Draft, sources: seq<TrustedSource>, b: bool, i: bool)
    requires Standing(Interpret(e, r, 1, Start(r), d.directives), r, b, i, false)
    ensures Standing(Interpret(e, r, 1, Start(r), AddAllTrusted(d, sources).directives), r, b, i,
                     Trusted(e, r, sources))
    ensures AddAllTrusted(d, sources).nextId == d.nextId + Count(sources, ValidSource)
  {
    if |sources| > 0 {
      var init, last := sources[..|sources| - 1], sources[|sources| - 1];
      SourcesMean(e, r, d, init, b, i);
      var before := AddAllTrusted(d, init);
      var s := Interpret(e, r, 1, Start(r), before.directives);
      if ValidSource(last) {
        RunTrusted(e, r, s, before.nextId, last, b, i, Trusted(e, r, init));
        InterpretAppends(e, r, 1, Start(r), before.directives, EmitTrusted(before.nextId, last));
      }
      TrustedGrows(e, r, init, last);
      assert init + [last] == sources;
    }
  }

  lemma TrustedGrows(e: Engine, r: Request, sources: seq<TrustedSource>, last: TrustedSource)
    ensures Trusted(e, r, sources + [last]) <==>
              Trusted(e, r, sources) || (ValidSource(last) && e.ipMatch(r.address, last.value))
  {
    var all := sources + [last];
    assert all[|sources|] == last;
    if Trusted(e, r, sources) {
      var i :| 0 <= i < |sources| && ValidSource(sources[i]) && e.ipMatch(r.address, sources[i].value);
      assert all[i] == sources[i];
    }
  }

  lemma AllowStepsMean(e: Engine, r: Request, input: CompileInput)
    ensures Standing(Interpret(e, r, 1, Start(r), AllowSteps(input).directives), r,
                     ConfirmedBot(e, r, BotsOf(input)), Internal(r), Trusted(e, r, input.trustedSources))
    ensures AllowSteps(input).nextId == FirstDenyId(input)
  {
    RunHeader(e, r, input);
    BotsMean(e, r, Header(input), BotsOf(input));
    var bots := AddBots(Header(input), BotsOf(input));
    var s := Interpret(e, r, 1, Start(r), bots.directives);
    RunInternal(e, r, s, bots.nextId, ConfirmedBot(e, r, BotsOf(input)), false);
    InterpretAppends(e, r, 1, Start(r), bots.directives, EmitInternal(bots.nextId));
    SourcesMean(e, r, AddInternal(bots), input.trustedSources, ConfirmedBot(e, r, BotsOf(input)), Internal(r));
  }

  /** The verdict once these deny rules have been read, numbered from `start`. */
  function VerdictOf(hit: Option<nat>, excused: bool, rules: seq<DenyRule>, start: nat): Verdict
    requires hit.Some? ==> hit.value <= |rules|
  {
    if excused || hit.None? then Pass else Verdict.Denied(start + Count(rules[..hit.value], ValidDeny))
  }

  lemma {:induction false} DeniesMean(e: Engine, r: Request, d: Draft, rules: seq<DenyRule>, b: bool, i: bool, t: bool)
    requires Standing(Interpret(e, r, 1, Start(r), d.directives), r, b, i, t)
    ensures AddDenies(d, rules).nextId == d.nextId + Count(rules, ValidDeny)
    ensures var after := Interpret(e, r, 1, Start(r), AddDenies(d, rules).directives);
            && after.verdict == VerdictOf(FirstHit(e, r, rules), b || i || t, rules, d.nextId)
            && (after.verdict == Pass ==> Standing(after, r, b, i, t))
  {
    if |rules| > 0 {
      var init, last := rules[..|rules| - 1], rules[|rules| - 1];
      DeniesMean(e, r, d, init, b, i, t);
      var before := AddDenies(d, init);
      var s := Interpret(e, r, 1, Start(r), before.directives);
      var hit := FirstHit(e, r, init);
      if hit.Some? { assert init[..hit.value] == rules[..hit.value]; }
      if ValidDeny(last) {
        InterpretAppends(e, r, 1, Start(r), before.directives, EmitDeny(before.nextId, last));
        if s.verdict.Denied? {
          Stopped(e, r, 1, s, EmitDeny(before.nextId, last));
        } else {
          RunDeny(e, r, s, before.nextId, last, b, i, t);
        }
      }
    }
  }

  lemma DenyStepsMean(e: Engine, r: Request, input: CompileInput)
    ensures var after := Interpret(e, r, 1, Start(r), DenySteps(input).directives);
            && after.verdict == DenyVerdict(e, r, input)
            && (after.verdict == Pass ==> after.link == Free && ReadRecorded(after.tx) == NO_LIMIT)
    ensures DenySteps(input).nextId == FirstDenyId(input) + Count(input.denyList, ValidDeny)
  {
    ConfirmedByEither(e, r, VERIFIED_BOTS, input.botAllowList);
    AllowStepsMean(e, r, input);
    DeniesMean(e, r, AllowSteps(input), input.denyList, ConfirmedBot(e, r, BotsOf(input)), Internal(r),
               Trusted(e, r, input.trustedSources));
  }

  // ---------------------------------------------------------------- what the later steps leave alone

  /** An action of phase 1 never changes the verdict. */
  lemma RunAction(e: Engine, r: Request, s: State, id: nat, sets: seq<SetVar>)
    requires s.verdict == Pass ==> s.link == Free
    ensures var after := Interpret(e, r, 1, s, [Action(id, 1, sets)]);
            && after.verdict == s.verdict
            && (after.verdict == Pass ==> after.link == Free && after.tx == Apply(s.tx, sets))
  {
    RunOne(e, r, 1, s, Action(id, 1, sets));
  }

  /** What the limits record of themselves: the last valid rule, or nothing. */
  datatype Recorded = Recorded(limit: string, key: string)

  const NO_LIMIT := Recorded("", "")

  function RecordedBy(rules: seq<RateLimitRule>, before: Recorded): Recorded {
    if |rules| == 0 then before
    else
      var last := rules[|rules| - 1];
      if ValidRate(last)
      then
        Recorded(Decimal(last.limit.Floor) + "/" + Decimal(last.windowSeconds.Floor) + "s",
                 match last.key case ByIp => "ip" case ByHeader => "header" case Globally => "global")
      else RecordedBy(rules[..|rules| - 1], before)
  }

  function ReadRecorded(tx: map<TxVar, string>): Recorded {
    Recorded(ReadTx(tx, RateLimit), ReadTx(tx, RateLimitKey))
  }

  lemma ApplySingle(tx: map<TxVar, string>, a: SetVar)
    ensures Apply(tx, [a]) == tx[a.v := a.text]
  {
    assert [a][..0] == [];
  }

  lemma ApplyPair(tx: map<TxVar, string>, a: SetVar, b: SetVar)
    ensures Apply(tx, [a, b]) == tx[a.v := a.text][b.v := b.text]
  {
    ApplySingle(tx, a);
    assert [a, b][..1] == [a];
  }

  lemma RunRate(e: Engine, r: Request, s: State, id: nat, rule: RateLimitRule)
    requires ValidRate(rule) && (s.verdict == Pass ==> s.link == Free)
    ensures var after := Interpret(e, r, 1, s, EmitRate(id, rule));
            && after.verdict == s.verdict
            && (after.verdict == Pass ==> after.link == Free && ReadRecorded(after.tx) == RecordedBy([rule], NO_LIMIT))
  {
    var sets := EmitRate(id, rule)[0].sets;
    RunAction(e, r, s, id, sets);
    ApplyPair(s.tx, sets[0], sets[1]);
    assert sets == [sets[0], sets[1]];
  }

  lemma {:induction false} RatesMean(e: Engine, r: Request, d: Draft, rules: seq<RateLimitRule>)
    requires var s := Interpret(e, r, 1, Start(r), d.directives); s.verdict == Pass ==> s.link == Free
    ensures var s, after := Interpret(e, r, 1, Start(r), d.directives),
            Interpret(e, r, 1, Start(r), AddRates(d, rules).directives);
            && after.verdict == s.verdict
            && (after.verdict == Pass ==>
                  after.link == Free && ReadRecorded(after.tx) == RecordedBy(rules, ReadRecorded(s.tx)))
    ensures AddRates(d, rules).nextId == d.nextId + Count(rules, ValidRate)
  {
    if |rules| > 0 {
      var init, last := rules[..|rules| - 1], rules[|rules| - 1];
      RatesMean(e, r, d, init);
      if ValidRate(last) {
        var before := AddRates(d, init);
        RunRate(e, r, Interpret(e, r, 1, Start(r), before.directives), before.nextId, last);
        InterpretAppends(e, r, 1, Start(r), before.directives, EmitRate(before.nextId, last));
      }
    }
  }

  lemma RunChallenge(e: Engine, r: Request, s: State, id: nat)
    requires s.verdict == Pass ==> s.link == Free
    ensures var after := Interpret(e, r, 1, s, EmitChallenge(id));
            && after.verdict == s.verdict
            && (after.verdict == Pass ==> after.link == Free && ReadRecorded(after.tx) == ReadRecorded(s.tx))
  {
    var sets := EmitChallenge(id)[0].sets;
    RunAction(e, r, s, id, sets);
    ApplySingle(s.tx, sets[0]);
    assert sets == [sets[0]];
  }

  lemma LimitStepsMean(e: Engine, r: Request, input: CompileInput)
    ensures var after := Interpret(e, r, 1, Start(r), LimitSteps(input).directives);
            && after.verdict == DenyVerdict(e, r, input)
            && (after.verdict == Pass ==>
                  after.link == Free && ReadRecorded(after.tx) == RecordedBy(input.rateLimits, NO_LIMIT))
    ensures LimitSteps(input).nextId + 1 == WafId(input)
  {
    DenyStepsMean(e, r, input);
    RatesMean(e, r, DenySteps(input), input.rateLimits);
    var rated := AddRates(DenySteps(input), input.rateLimits);
    if input.attackMode {
      RunChallenge(e, r, Interpret(e, r, 1, Start(r), rated.directives), rated.nextId);
      InterpretAppends(e, r, 1, Start(r), rated.directives, EmitChallenge(rated.nextId));
    }
  }

  // ---------------------------------------------------------------- the second phase

  /** Nothing here runs in phase 2. */
  predicate FirstPhase(ds: seq<Directive>) {
    forall i :: 0 <= i < |ds| ==> (ds[i].Rule? ==> ds[i].phase != Some(2)) && (ds[i].Action? ==> ds[i].actionPhase == 1)
  }

  predicate Idling(s: State) {
    s.verdict == Pass && (s.link.Open? ==> !s.link.matched)
  }

  lemma {:induction false} FirstPhaseIdles(e: Engine, r: Request, s: State, ds: seq<Directive>)
    requires FirstPhase(ds) && Idling(s)
    ensures Idling(Interpret(e, r, 2, s, ds)) && Interpret(e, r, 2, s, ds).tx == s.tx
  {
    if |ds| > 0 {
      FirstPhaseIdles(e, r, s, ds[..|ds| - 1]);
    }
  }

  lemma {:induction false} BotsFirstPhase(d: Draft, bots: seq<VerifiedBot>)
    requires FirstPhase(d.directives)
    ensures FirstPhase(AddBots(d, bots).directives)
  {
    if |bots| > 0 { BotsFirstPhase(d, bots[..|bots| - 1]); }
  }

  lemma {:induction false} SourcesFirstPhase(d: Draft, sources: seq<TrustedSource>)
    requires FirstPhase(d.directives)
    ensures FirstPhase(AddAllTrusted(d, sources).directives)
  {
    if |sources| > 0 { SourcesFirstPhase(d, sources[..|sources| - 1]); }
  }

  lemma {:induction false} DeniesFirstPhase(d: Draft, rules: seq<DenyRule>)
    requires FirstPhase(d.directives)
    ensures FirstPhase(AddDenies(d, rules).directives)
  {
    if |rules| > 0 { DeniesFirstPhase(d, rules[..|rules| - 1]); }
  }

  lemma {:induction false} RatesFirstPhase(d: Draft, rules: seq<RateLimitRule>)
    requires FirstPhase(d.directives)
    ensures FirstPhase(AddRates(d, rules).directives)
  {
    if |rules| > 0 { RatesFirstPhase(d, rules[..|rules| - 1]); }
  }

  lemma LimitStepsFirstPhase(input: CompileInput)
    ensures FirstPhase(LimitSteps(input).directives)
  {
    BotsFirstPhase(Header(input), BotsOf(input));
    SourcesFirstPhase(AddInternal(AddBots(Header(input), BotsOf(input))), input.trustedSources);
    DeniesFirstPhase(AllowSteps(input), input.denyList);
    RatesFirstPhase(DenySteps(input), input.rateLimits);
  }

  /** The last two directives, in phase 1: the threshold is set, and the rule that reads it waits. */
  lemma WafInFirstPhase(e: Engine, r: Request, s: State, id: nat, policy: EdgePolicy)
    requires s.verdict == Pass ==> s.link == Free
    ensures var after := Interpret(e, r, 1, s, EmitThreshold(id, policy) + EmitWaf(id + 1, policy));
            && after.verdict == s.verdict
            && (after.verdict == Pass ==> ReadTx(after.tx, Threshold) == Decimal(ThresholdOf(policy.riskLevel)))
  {
    var a, b := EmitThreshold(id, policy)[0], EmitWaf(id + 1, policy)[0];
    assert EmitThreshold(id, policy) + EmitWaf(id + 1, policy) == [a, b];
    RunTwo(e, r, 1, s, a, b);
    assert a.sets[..0] == [];
  }

  lemma WafInSecondPhase(e: Engine, r: Request, s: State, id: nat, policy: EdgePolicy)
    requires Idling(s)
    ensures Interpret(e, r, 2, s, EmitThreshold(id, policy) + EmitWaf(id + 1, policy)).verdict
         == if Denies(policy.action) && e.atLeast(ReadTx(s.tx, InboundScore), ReadTx(s.tx, Threshold))
            then Verdict.Denied(id + 1) else Pass
  {
    var a, b := EmitThreshold(id, policy)[0], EmitWaf(id + 1, policy)[0];
    assert EmitThreshold(id, policy) + EmitWaf(id + 1, policy) == [a, b];
    RunTwo(e, r, 2, s, a, b);
  }

  function AfterPolicy(e: Engine, first: Verdict, score: string, ruleId: nat, policy: EdgePolicy): Verdict {
    if first.Denied? then first
    else if Denies(policy.action) && e.atLeast(score, Decimal(ThresholdOf(policy.riskLevel)))
      then Verdict.Denied(ruleId)
    else Pass
  }

  /** A list of the first phase followed by the policy's two directives. */
  lemma InspectWithPolicy(e: Engine, r: Request, score: string, ds: seq<Directive>, id: nat, policy: EdgePolicy)
    requires FirstPhase(ds)
    requires Interpret(e, r, 1, Start(r), ds).verdict == Pass ==> Interpret(e, r, 1, Start(r), ds).link == Free
    ensures Inspect(e, r, score, ds + (EmitThreshold(id, policy) + EmitWaf(id + 1, policy)))
         == AfterPolicy(e, Interpret(e, r, 1, Start(r), ds).verdict, score, id + 1, policy)
  {
    var waf := EmitThreshold(id, policy) + EmitWaf(id + 1, policy);
    InterpretAppends(e, r, 1, Start(r), ds, waf);
    WafInFirstPhase(e, r, Interpret(e, r, 1, Start(r), ds), id, policy);
    var handed := Interpret(e, r, 1, Start(r), ds + waf);
    if handed.verdict == Pass {
      var s := State(handed.tx[InboundScore := score], Pass, Free);
      FirstPhaseIdles(e, r, s, ds);
      InterpretAppends(e, r, 2, s, ds, waf);
      WafInSecondPhase(e, r, Interpret(e, r, 2, s, ds), id, policy);
    }
  }

  lemma InspectWithoutPolicy(e: Engine, r: Request, score: string, ds: seq<Directive>)
    requires FirstPhase(ds)
    ensures Inspect(e, r, score, ds) == Interpret(e, r, 1, Start(r), ds).verdict
  {
    var first := Interpret(e, r, 1, Start(r), ds);
    if first.verdict == Pass {
      FirstPhaseIdles(e, r, State(first.tx[InboundScore := score], Pass, Free), ds);
    }
  }

  // ---------------------------------------------------------------- the theorems

  /**
   The compiler preserves meaning: for every policy, engine, request and score,
   reading the emitted chains gives exactly the policy's verdict, down to the rule
   that denied.
   */
  lemma CompilerPreservesMeaning(e: Engine, r: Request, score: string, input: CompileInput)
    ensures Inspect(e, r, score, Compiled(input).directives) == Meaning(e, r, score, input)
  {
    LimitStepsMean(e, r, input);
    LimitStepsFirstPhase(input);
    var limits := LimitSteps(input);
    if input.policy.Some? {
      var id, policy := limits.nextId, input.policy.value;
      assert Compiled(input).directives == limits.directives + (EmitThreshold(id, policy) + EmitWaf(id + 1, policy));
      InspectWithPolicy(e, r, score, limits.directives, id, policy);
      ThresholdStops(policy);
    } else {
      InspectWithoutPolicy(e, r, score, limits.directives);
    }
  }

  /** Attack mode never decides who is denied: with it on or off, the same requests pass. */
  lemma AttackModeDeniesNobodyElse(e: Engine, r: Request, score: string, input: CompileInput, attackMode: bool)
    ensures Inspect(e, r, score, Compiled(input).directives).Denied?
       <==> Inspect(e, r, score, Compiled(input.(attackMode := attackMode)).directives).Denied?
    ensures DenyVerdict(e, r, input) == DenyVerdict(e, r, input.(attackMode := attackMode))
  {
    CompilerPreservesMeaning(e, r, score, input);
    CompilerPreservesMeaning(e, r, score, input.(attackMode := attackMode));
  }

  /** A bot's name alone buys nothing: without a confirmed name, the claim does not excuse. */
  lemma ClaimingIsNotEnough(e: Engine, r: Request, score: string, input: CompileInput, i: nat)
    requires i < |input.denyList| && DenyHit(e, r, input.denyList[i])
    requires r.confirmedName.None? && !Internal(r) && !Trusted(e, r, input.trustedSources)
    ensures Inspect(e, r, score, Compiled(input).directives).Denied?
  {
    CompilerPreservesMeaning(e, r, score, input);
  }

  /** Being excused is not being waved through: an excused request still meets the second phase. */
  lemma ExcusedStillInspected(e: Engine, r: Request, score: string, input: CompileInput)
    requires Excused(e, r, input)
    ensures Inspect(e, r, score, Compiled(input).directives)
         == if WafHit(e, score, input) then Verdict.Denied(WafId(input)) else Pass
  {
    CompilerPreservesMeaning(e, r, score, input);
  }

  // ---------------------------------------------------------------- who is counted

  /** The policy's own two directives record no limit. */
  lemma WafRecordsNothing(e: Engine, r: Request, s: State, id: nat, policy: EdgePolicy)
    requires s.verdict == Pass && s.link == Free
    ensures ReadRecorded(Interpret(e, r, 1, s, EmitThreshold(id, policy) + EmitWaf(id + 1, policy)).tx)
            == ReadRecorded(s.tx)
  {
    var a, b := EmitThreshold(id, policy)[0], EmitWaf(id + 1, policy)[0];
    assert EmitThreshold(id, policy) + EmitWaf(id + 1, policy) == [a, b];
    RunTwo(e, r, 1, s, a, b);
    ApplySingle(s.tx, a.sets[0]);
    assert a.sets == [a.sets[0]];
  }

  /** After the first phase, every request that was not denied carries the last valid limit, excused or not. */
  lemma LimitsExemptNobody(e: Engine, r: Request, input: CompileInput)
    requires DenyVerdict(e, r, input) == Pass
    ensures ReadRecorded(Interpret(e, r, 1, Start(r), Compiled(input).directives).tx)
            == RecordedBy(input.rateLimits, NO_LIMIT)
  {
    LimitStepsMean(e, r, input);
    var limits := LimitSteps(input);
    if input.policy.Some? {
      var id, policy := limits.nextId, input.policy.value;
      var waf := EmitThreshold(id, policy) + EmitWaf(id + 1, policy);
      assert Compiled(input).directives == limits.directives + waf;
      InterpretAppends(e, r, 1, Start(r), limits.directives, waf);
      WafRecordsNothing(e, r, Interpret(e, r, 1, Start(r), limits.directives), id, policy);
    }
  }

  /** So an excused request and another that passes are counted alike. */
  lemma ExcusedAreCountedAlike(e: Engine, excused: Request, other: Request, input: CompileInput)
    requires Excused(e, excused, input) && !Excused(e, other, input) && DenyVerdict(e, other, input) == Pass
    ensures ReadRecorded(Interpret(e, excused, 1, Start(excused), Compiled(input).directives).tx)
         == ReadRecorded(Interpret(e, other, 1, Start(other), Compiled(input).directives).tx)
  {
    LimitsExemptNobody(e, excused, input);
    LimitsExemptNobody(e, other, input);
  }
}
