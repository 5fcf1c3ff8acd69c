/** The compiler from an organization's security policy to directives, a reviewable ladder and per-host routes. */
module EdgeCompiler {
  import opened Contracts
  import opened EdgeInput
  import opened SecLang

  const INTERNAL_REQUEST_HEADER := "x-cloud-wai-internal"
  const USER_AGENT := "User-Agent"

  datatype Stage =
    | AllowVerifiedBot | AllowInternal | AllowTrustedIp | BlockDenyList | RateLimited | Challenged | Waf | Protect

  /**
   One step of the ladder, with the whole chain it stands for. `protect` stands for none:
   the edge enforces it per route.
   */
  datatype LadderStep = LadderStep(id: nat, stage: Stage, action: Enforcement, directives: seq<Directive>)

  datatype CompiledRateLimit = CompiledRateLimit(descriptor: string, limit: real, windowSeconds: real)

  datatype Fragment = Fragment(
    host: string,
    pathPrefix: string,
    cluster: string,
    privateOrigin: string,
    wafEnabled: bool,
    challengeBrowsers: bool,
    skipChallengeAddresses: seq<string>,
    skipChallengeForVerifiedBots: bool,
    protection: Protection)

  datatype CompiledEdge = CompiledEdge(
    directives: seq<Directive>,
    envoyConfig: Fragment,
    envoyRoutes: seq<Fragment>,
    ladder: seq<LadderStep>,
    rateLimits: seq<CompiledRateLimit>,
    protection: Protection,
    version: nat)

  // ---------------------------------------------------------------- rendering

  function DigitChar(n: nat): char
    requires n < 10
  {
    '0' + n as char
  }

  function Decimal(n: nat): string {
    if n < 10 then [DigitChar(n)] else Decimal(n / 10) + [DigitChar(n % 10)]
  }

  /** Every dot of a suffix escaped. */
  function Escaped(suffix: string): seq<Atom> {
    seq(|suffix|, i requires 0 <= i < |suffix| => Lit(suffix[i]))
  }

  function BotConfirmPattern(suffix: string): Pattern {
    AtBoundary(Escaped(suffix))
  }

  function RateKeyText(key: RateKey): string {
    match key
    case ByIp => "ip"
    case ByHeader => "header"
    case Globally => "global"
  }

  function RateDescriptor(rule: RateLimitRule): string {
    match rule.key
    case ByIp => "remote_address"
    case ByHeader => "header:" + (if rule.headerName.Some? then rule.headerName.value else "")
    case Globally => "route_global"
  }

  function ThresholdOf(risk: RiskLevel): nat {
    match risk
    case Critical => 1
    case High => 3
    case _ => 5
  }

  /** The engine's disruptive action for an enforcement action: deny, or pass. */
  predicate Denies(action: Enforcement) {
    action == Challenge || action == Block || action == Quarantine
  }

  function ClusterOf(host: string): string {
    "origin-" + seq(|host|, i requires 0 <= i < |host| => if host[i] == '.' then '-' else host[i])
  }

  // ---------------------------------------------------------------- directives

  function EmitBot(id: nat, bot: VerifiedBot): seq<Directive> {
    [Rule(RequestHeader(USER_AGENT), Contains(bot.userAgent), false, Some(id), Some(1), false, true, None),
     Rule(Tx(BotConfirm), Rx(BotConfirmPattern(bot.confirmSuffix)), false, None, None, false, false,
          Some(SetVar(BotMarker, Decimal(id))))]
  }

  function EmitInternal(id: nat): seq<Directive> {
    [Rule(RequestHeader(INTERNAL_REQUEST_HEADER), StrEq("1"), false, Some(id), Some(1), false, false,
          Some(SetVar(InternalMarker, "1")))]
  }

  function EmitTrusted(id: nat, source: TrustedSource): seq<Directive> {
    [Rule(RemoteAddr, IpMatch(source.value), false, Some(id), Some(1), false, false, Some(SetVar(TrustedMarker, "1")))]
  }

  function DenyTarget(rule: DenyRule): Target {
    match rule.kind
    case DenyIp => RemoteAddr
    case DenyCidr => RemoteAddr
    case DenyAsn => Tx(Asn)
    case DenyUserAgent => RequestHeader(USER_AGENT)
  }

  function DenyOperator(rule: DenyRule): Operator {
    match rule.kind
    case DenyIp => IpMatch(rule.value)
    case DenyCidr => IpMatch(rule.value)
    case DenyAsn => StrEq(rule.value)
    case DenyUserAgent => Contains(rule.value)
  }

  function EmitDeny(id: nat, rule: DenyRule): seq<Directive> {
    [Rule(DenyTarget(rule), DenyOperator(rule), false, Some(id), Some(1), true, true, None),
     Rule(Tx(TrustedMarker), StrEq("1"), true, None, None, false, true, None),
     Rule(Tx(InternalMarker), StrEq("1"), true, None, None, false, true, None),
     Rule(Tx(BotMarker), Rx(AllDigits), true, None, None, false, false, None)]
  }

  function EmitRate(id: nat, rule: RateLimitRule): seq<Directive>
    requires ValidRate(rule)
  {
    [Action(id, 1, [SetVar(RateLimit, Decimal(rule.limit.Floor) + "/" + Decimal(rule.windowSeconds.Floor) + "s"),
                    SetVar(RateLimitKey, RateKeyText(rule.key))])]
  }

  function EmitChallenge(id: nat): seq<Directive> {
    [Action(id, 1, [SetVar(ChallengeBrowsers, "1")])]
  }

  function EmitThreshold(id: nat, policy: EdgePolicy): seq<Directive> {
    [Action(id, 1, [SetVar(Threshold, Decimal(ThresholdOf(policy.riskLevel)))])]
  }

  function EmitWaf(id: nat, policy: EdgePolicy): seq<Directive> {
    [Rule(Tx(InboundScore), AtLeast(Threshold), false, Some(id), Some(2), Denies(policy.action), false, None)]
  }

  function EmitHeader(route: EdgeRoute): seq<Directive> {
    [EngineOn, Rule(RequestUri, BeginsWith(route.pathPrefix), false, Some(1), Some(1), false, false, None)]
  }

  // ---------------------------------------------------------------- the artifact as it grows

  datatype Draft = Draft(directives: seq<Directive>, ladder: seq<LadderStep>, rateLimits: seq<CompiledRateLimit>,
                         nextId: nat)

  /** One numbered step, its directives pushed and the step recorded. */
  function Push(d: Draft, stage: Stage, action: Enforcement, emitted: seq<Directive>): Draft {
    d.(directives := d.directives + emitted,
       ladder := d.ladder + [LadderStep(d.nextId, stage, action, emitted)],
       nextId := d.nextId + 1)
  }

  function AddBot(d: Draft, bot: VerifiedBot): Draft {
    if ValidBot(bot) then Push(d, AllowVerifiedBot, Allow, EmitBot(d.nextId, bot)) else d
  }

  function AddTrusted(d: Draft, source: TrustedSource): Draft {
    if ValidSource(source) then Push(d, AllowTrustedIp, Allow, EmitTrusted(d.nextId, source)) else d
  }

  function AddDeny(d: Draft, rule: DenyRule): Draft {
    if ValidDeny(rule) then Push(d, BlockDenyList, Block, EmitDeny(d.nextId, rule)) else d
  }

  function AddRate(d: Draft, rule: RateLimitRule): Draft {
    if ValidRate(rule) then
      Push(d, RateLimited, Log, EmitRate(d.nextId, rule))
      .(rateLimits := d.rateLimits + [CompiledRateLimit(RateDescriptor(rule), rule.limit, rule.windowSeconds)])
    else d
  }

  function AddBots(d: Draft, bots: seq<VerifiedBot>): Draft {
    if |bots| == 0 then d else AddBot(AddBots(d, bots[..|bots| - 1]), bots[|bots| - 1])
  }

  function AddAllTrusted(d: Draft, sources: seq<TrustedSource>): Draft {
    if |sources| == 0 then d else AddTrusted(AddAllTrusted(d, sources[..|sources| - 1]), sources[|sources| - 1])
  }

  function AddDenies(d: Draft, rules: seq<DenyRule>): Draft {
    if |rules| == 0 then d else AddDeny(AddDenies(d, rules[..|rules| - 1]), rules[|rules| - 1])
  }

  function AddRates(d: Draft, rules: seq<RateLimitRule>): Draft {
    if |rules| == 0 then d else AddRate(AddRates(d, rules[..|rules| - 1]), rules[|rules| - 1])
  }

  function AddInternal(d: Draft): Draft {
    Push(d, AllowInternal, Allow, EmitInternal(d.nextId))
  }

  function AddChallenge(d: Draft, attackMode: bool): Draft {
    if attackMode then Push(d, Challenged, Challenge, EmitChallenge(d.nextId)) else d
  }

  /** The threshold takes a number of its own and no step. */
  function AddThreshold(d: Draft, policy: EdgePolicy): Draft {
    d.(directives := d.directives + EmitThreshold(d.nextId, policy), nextId := d.nextId + 1)
  }

  /** The rule that reads the threshold takes the next number, and is a step. */
  function AddWaf(d: Draft, policy: Option<EdgePolicy>): Draft {
    if policy.None? then d
    else Push(AddThreshold(d, policy.value), Waf, policy.value.action, EmitWaf(d.nextId + 1, policy.value))
  }

  function Header(input: CompileInput): Draft {
    Draft(EmitHeader(input.route), [], [], 10)
  }

  // The ladder, section by section.

  function AllowSteps(input: CompileInput): Draft {
    AddAllTrusted(AddInternal(AddBots(Header(input), BotsOf(input))), input.trustedSources)
  }

  function DenySteps(input: CompileInput): Draft {
    AddDenies(AllowSteps(input), input.denyList)
  }

  function LimitSteps(input: CompileInput): Draft {
    AddChallenge(AddRates(DenySteps(input), input.rateLimits), input.attackMode)
  }

  function AllSteps(input: CompileInput): Draft {
    AddWaf(LimitSteps(input), input.policy)
  }

  // ---------------------------------------------------------------- routes

  function RoutesOf(input: CompileInput): seq<EdgeRoute> {
    [input.route] + input.routes
  }

  /** The addresses the edge must never challenge: the trusted ones that validate. */
  function SkipAddresses(sources: seq<TrustedSource>): seq<string> {
    if |sources| == 0 then []
    else
      var last := sources[|sources| - 1];
      var before := SkipAddresses(sources[..|sources| - 1]);
      if ValidSource(last) then before + [last.value] else before
  }

  function FragmentOf(input: CompileInput, route: EdgeRoute): Fragment {
    Fragment(route.host, route.pathPrefix, ClusterOf(route.host), route.origin, input.policy.Some?, input.attackMode,
             SkipAddresses(input.trustedSources), input.attackMode, ProtectionOf(route.protection))
  }

  predicate Names(routes: seq<EdgeRoute>, host: string) {
    exists i :: 0 <= i < |routes| && routes[i].host == host
  }

  function Fragments(input: CompileInput, routes: seq<EdgeRoute>): (fragments: seq<Fragment>)
    ensures |routes| > 0 ==> |fragments| > 0
  {
    if |routes| == 0 then []
    else
      var before := Fragments(input, routes[..|routes| - 1]);
      var last := routes[|routes| - 1];
      if Names(routes[..|routes| - 1], last.host) then before else before + [FragmentOf(input, last)]
  }

  predicate ProtectedAny(fragments: seq<Fragment>) {
    exists i :: 0 <= i < |fragments| && fragments[i].protection.mode != Unprotected
  }

  function ProtectStep(id: nat): LadderStep {
    LadderStep(id, Protect, Challenge, [])
  }

  function Compiled(input: CompileInput): CompiledEdge {
    var draft := AllSteps(input);
    var fragments := Fragments(input, RoutesOf(input));
    CompiledEdge(draft.directives, fragments[0], fragments,
                 draft.ladder + (if ProtectedAny(fragments) then [ProtectStep(draft.nextId)] else []),
                 draft.rateLimits, fragments[0].protection,
                 if input.policy.Some? then input.policy.value.version else 1)
  }

  // ---------------------------------------------------------------- the program

  method CompileBots(bots: seq<VerifiedBot>, start: Draft) returns (d: Draft)
    ensures d == AddBots(start, bots)
  {
    var directives, ladder, nextId := start.directives, start.ladder, start.nextId;
    for i := 0 to |bots|
      invariant Draft(directives, ladder, start.rateLimits, nextId) == AddBots(start, bots[..i])
    {
      assert bots[..i + 1][..i] == bots[..i];
      if !ValidBot(bots[i]) { continue; }
      var id := nextId;
      nextId := nextId + 1;
      var starter := Rule(RequestHeader(USER_AGENT), Contains(bots[i].userAgent), false, Some(id), Some(1), false, true,
                          None);
      var member := Rule(Tx(BotConfirm), Rx(BotConfirmPattern(bots[i].confirmSuffix)), false, None, None, false, false,
                         Some(SetVar(BotMarker, Decimal(id))));
      directives := directives + [starter, member];
      ladder := ladder + [LadderStep(id, AllowVerifiedBot, Allow, [starter, member])];
    }
    assert bots[..|bots|] == bots;
    d := Draft(directives, ladder, start.rateLimits, nextId);
  }

  method CompileTrusted(sources: seq<TrustedSource>, start: Draft) returns (d: Draft)
    ensures d == AddAllTrusted(start, sources)
  {
    var directives, ladder, nextId := start.directives, start.ladder, start.nextId;
    for i := 0 to |sources|
      invariant Draft(directives, ladder, start.rateLimits, nextId) == AddAllTrusted(start, sources[..i])
    {
      assert sources[..i + 1][..i] == sources[..i];
      if !ValidSource(sources[i]) { continue; }
      var id := nextId;
      nextId := nextId + 1;
      var directive := Rule(RemoteAddr, IpMatch(sources[i].value), false, Some(id), Some(1), false, false,
                            Some(SetVar(TrustedMarker, "1")));
      directives := directives + [directive];
      ladder := ladder + [LadderStep(id, AllowTrustedIp, Allow, [directive])];
    }
    assert sources[..|sources|] == sources;
    d := Draft(directives, ladder, start.rateLimits, nextId);
  }

  method CompileDenies(rules: seq<DenyRule>, start: Draft) returns (d: Draft)
    ensures d == AddDenies(start, rules)
  {
    var directives, ladder, nextId := start.directives, start.ladder, start.nextId;
    for i := 0 to |rules|
      invariant Draft(directives, ladder, start.rateLimits, nextId) == AddDenies(start, rules[..i])
    {
      assert rules[..i + 1][..i] == rules[..i];
      if !ValidDeny(rules[i]) { continue; }
      var id := nextId;
      nextId := nextId + 1;
      var starter := Rule(DenyTarget(rules[i]), DenyOperator(rules[i]), false, Some(id), Some(1), true, true, None);
      var trustedMember := Rule(Tx(TrustedMarker), StrEq("1"), true, None, None, false, true, None);
      var internalMember := Rule(Tx(InternalMarker), StrEq("1"), true, None, None, false, true, None);
      var botMember := Rule(Tx(BotMarker), Rx(AllDigits), true, None, None, false, false, None);
      directives := directives + [starter, trustedMember, internalMember, botMember];
      ladder := ladder + [LadderStep(id, BlockDenyList, Block, [starter, trustedMember, internalMember, botMember])];
    }
    assert rules[..|rules|] == rules;
    d := Draft(directives, ladder, start.rateLimits, nextId);
  }

  method CompileRates(rules: seq<RateLimitRule>, start: Draft) returns (d: Draft)
    ensures d == AddRates(start, rules)
  {
    var directives, ladder, rateLimits, nextId := start.directives, start.ladder, start.rateLimits, start.nextId;
    for i := 0 to |rules|
      invariant Draft(directives, ladder, rateLimits, nextId) == AddRates(start, rules[..i])
    {
      assert rules[..i + 1][..i] == rules[..i];
      if !ValidRate(rules[i]) { continue; }
      var id := nextId;
      nextId := nextId + 1;
      var directive := EmitRate(id, rules[i]);
      directives := directives + directive;
      ladder := ladder + [LadderStep(id, RateLimited, Log, directive)];
      rateLimits := rateLimits + [CompiledRateLimit(RateDescriptor(rules[i]), rules[i].limit, rules[i].windowSeconds)];
    }
    assert rules[..|rules|] == rules;
    d := Draft(directives, ladder, rateLimits, nextId);
  }

  /** The steps after the limits: the challenge in attack mode, then the threshold and the rule that reads it. */
  method CompileInspection(attackMode: bool, policy: Option<EdgePolicy>, start: Draft) returns (d: Draft)
    ensures d == AddWaf(AddChallenge(start, attackMode), policy)
  {
    var directives, ladder, nextId := start.directives, start.ladder, start.nextId;
    if attackMode {
      var id := nextId;
      nextId := nextId + 1;
      var directive := Action(id, 1, [SetVar(ChallengeBrowsers, "1")]);
      directives := directives + [directive];
      ladder := ladder + [LadderStep(id, Challenged, Challenge, [directive])];
    }
    if policy.Some? {
      var thresholdId := nextId;
      var ruleId := nextId + 1;
      nextId := nextId + 2;
      var threshold :=
        if policy.value.riskLevel == Critical then 1 else if policy.value.riskLevel == High then 3 else 5;
      var setThreshold := Action(thresholdId, 1, [SetVar(Threshold, Decimal(threshold))]);
      var wafRule := Rule(Tx(InboundScore), AtLeast(Threshold), false, Some(ruleId), Some(2),
                          Denies(policy.value.action), false, None);
      ghost var before := directives;
      directives := directives + [setThreshold, wafRule];
      assert directives == before + [setThreshold] + [wafRule];
      ladder := ladder + [LadderStep(ruleId, Waf, policy.value.action, [wafRule])];
    }
    d := Draft(directives, ladder, start.rateLimits, nextId);
  }

  lemma NamesGrow(routes: seq<EdgeRoute>, n: nat)
    requires n < |routes|
    ensures forall host :: Names(routes[..n + 1], host) <==> Names(routes[..n], host) || host == routes[n].host
  {
    forall host ensures Names(routes[..n + 1], host) <==> Names(routes[..n], host) || host == routes[n].host {
      if Names(routes[..n], host) {
        var i :| 0 <= i < n && routes[..n][i].host == host;
        assert routes[..n + 1][i].host == host;
      }
      if host == routes[n].host { assert routes[..n + 1][n].host == host; }
      if Names(routes[..n + 1], host) && host != routes[n].host {
        var i :| 0 <= i < n + 1 && routes[..n + 1][i].host == host;
        assert routes[..n][i].host == host;
      }
    }
  }

  lemma ProtectedGrows(fragments: seq<Fragment>, last: Fragment)
    ensures ProtectedAny(fragments + [last]) <==> ProtectedAny(fragments) || last.protection.mode != Unprotected
  {
    var all := fragments + [last];
    assert all[|fragments|] == last;
    if ProtectedAny(fragments) {
      var i :| 0 <= i < |fragments| && fragments[i].protection.mode != Unprotected;
      assert all[i] == fragments[i];
    }
  }

  /** One fragment per host, the first route that names a host deciding. */
  method CompileRoutes(input: CompileInput) returns (fragments: seq<Fragment>, protectedAny: bool)
    ensures fragments == Fragments(input, RoutesOf(input))
    ensures protectedAny == ProtectedAny(fragments)
  {
    var allRoutes := [input.route] + input.routes;
    var seen: set<string> := {};
    fragments, protectedAny := [], false;
    for i := 0 to |allRoutes|
      invariant fragments == Fragments(input, allRoutes[..i])
      invariant protectedAny == ProtectedAny(fragments)
      invariant forall host :: host in seen <==> Names(allRoutes[..i], host)
    {
      var one := allRoutes[i];
      assert allRoutes[..i + 1][..i] == allRoutes[..i];
      NamesGrow(allRoutes, i);
      if one.host in seen { continue; }
      seen := seen + {one.host};
      var protection := ProtectionOf(one.protection);
      if protection.mode != Unprotected { protectedAny := true; }
      ghost var before := fragments;
      fragments := fragments + [Fragment(one.host, one.pathPrefix, ClusterOf(one.host), one.origin, input.policy.Some?,
                                         input.attackMode,
                                         SkipAddresses(input.trustedSources), input.attackMode, protection)];
      ProtectedGrows(before, fragments[|before|]);
    }
    assert allRoutes[..|allRoutes|] == allRoutes;
  }

  /** Compile a policy: the ladder from the allow steps down, then the routes. */
  method CompileEdge(input: CompileInput) returns (compiled: CompiledEdge)
    ensures compiled == Compiled(input)
  {
    var bots := VERIFIED_BOTS + input.botAllowList;
    var draft := Draft(EmitHeader(input.route), [], [], 10);
    draft := CompileBots(bots, draft);
    draft := AddInternal(draft);
    draft := CompileTrusted(input.trustedSources, draft);
    draft := CompileDenies(input.denyList, draft);
    draft := CompileRates(input.rateLimits, draft);
    draft := CompileInspection(input.attackMode, input.policy, draft);
    var fragments, protectedAny := CompileRoutes(input);
    var ladder := draft.ladder;
    if protectedAny { ladder := ladder + [ProtectStep(draft.nextId)]; }
    compiled := CompiledEdge(draft.directives, fragments[0], fragments, ladder, draft.rateLimits,
                             fragments[0].protection,
                             if input.policy.Some? then input.policy.value.version else 1);
  }
}
