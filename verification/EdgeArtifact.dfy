/**
 What an artifact carries for each host, and what its ladder says of itself, told by the
 policy alone.
 */
module EdgeArtifact {
  import opened Contracts
  import opened EdgeInput
  import opened SecLang
  import opened EdgeCompiler
  import opened EdgeMeaning
  import opened EdgeShape
  import opened EdgeRoutes

  // ---------------------------------------------------------------- fragments

  /** The route asks for a posture that validates and protects. */
  predicate Protects(route: EdgeRoute) {
    route.protection.Some? && ValidProtection(route.protection.value) && route.protection.value.mode != Unprotected
  }

  /** The cluster is the host's own: `origin-`, and the host with a dash for each dot. */
  predicate NamesCluster(cluster: string, host: string) {
    && |cluster| == |"origin-"| + |host| && cluster[..|"origin-"|] == "origin-"
    && forall i :: 0 <= i < |host| ==> cluster[|"origin-"| + i] == if host[i] == '.' then '-' else host[i]
  }

  lemma ClusterIsNamed(host: string)
    ensures NamesCluster(ClusterOf(host), host)
  {
  }

  /**
   The fragment serves this route under this policy: its own path and origin, its
   posture whenever that validates, and none otherwise; inspection exactly with a
   policy; the challenge, and its exemption of bots, exactly in attack mode; and the
   addresses not to challenge are the valid trusted ones, in order.
   */
  predicate Serves(f: Fragment, route: EdgeRoute, input: CompileInput) {
    && NamesCluster(f.cluster, route.host)
    && f.host == route.host && f.pathPrefix == route.pathPrefix && f.privateOrigin == route.origin
    && (Protects(route) ==> f.protection == route.protection.value)
    && (!Protects(route) ==> f.protection.mode == Unprotected && !Present(f.protection.basicUser)
                             && !Present(f.protection.basicPasswordSha256) && Cidrs(f.protection) == [])
    && (f.wafEnabled <==> input.policy.Some?)
    && (f.challengeBrowsers <==> input.attackMode) && (f.skipChallengeForVerifiedBots <==> input.attackMode)
    && |f.skipChallengeAddresses| == |Only(input.trustedSources, ValidSource)|
    && forall i :: 0 <= i < |f.skipChallengeAddresses| ==>
         f.skipChallengeAddresses[i] == Only(input.trustedSources, ValidSource)[i].value
  }

  lemma {:induction false} SkipsTheValid(sources: seq<TrustedSource>)
    ensures var kept := Only(sources, ValidSource);
            && |SkipAddresses(sources)| == |kept|
            && forall i :: 0 <= i < |kept| ==> SkipAddresses(sources)[i] == kept[i].value
  {
    if |sources| > 0 { SkipsTheValid(sources[..|sources| - 1]); }
  }

  lemma FragmentServes(input: CompileInput, route: EdgeRoute)
    ensures Serves(FragmentOf(input, route), route, input)
  {
    SkipsTheValid(input.trustedSources);
    ClusterIsNamed(route.host);
  }

  /** Each named host is served as the first route naming it asks, and no other host is served. */
  lemma HostsAreServed(input: CompileInput, host: string)
    ensures var first, found := FirstNamed(RoutesOf(input), host), FragmentFor(Compiled(input).envoyRoutes, host);
            && HostsDistinct(Compiled(input).envoyRoutes)
            && (found.Some? <==> first.Some?)
            && (found.Some? ==> Serves(found.value, first.value, input))
  {
    FirstRouteDecides(input, RoutesOf(input), host);
    var first := FirstNamed(RoutesOf(input), host);
    if first.Some? { FragmentServes(input, first.value); }
  }

  lemma {:induction false} FirstFragment(input: CompileInput, routes: seq<EdgeRoute>)
    requires |routes| > 0
    ensures Fragments(input, routes)[0] == FragmentOf(input, routes[0])
  {
    if |routes| > 1 { FirstFragment(input, routes[..|routes| - 1]); }
  }

  /** The artifact's own fragment, posture and version are the primary route's and the policy's. */
  lemma PrimaryLeads(input: CompileInput)
    ensures var c := Compiled(input);
            && |c.envoyRoutes| > 0 && c.envoyConfig == c.envoyRoutes[0] && Serves(c.envoyConfig, input.route, input)
            && c.protection == c.envoyConfig.protection
            && c.version == if input.policy.Some? then input.policy.value.version else 1
  {
    FirstFragment(input, RoutesOf(input));
    FragmentServes(input, input.route);
  }

  /** The path that scopes the rules is the primary route's, and that rule refuses nothing. */
  lemma RulesAreScoped(input: CompileInput)
    ensures var ds := Compiled(input).directives;
            && |ds| >= 2 && ds[0] == EngineOn && ds[1].Rule?
            && ds[1].target == RequestUri && ds[1].op == BeginsWith(input.route.pathPrefix) && !ds[1].negated
            && !ds[1].deny && !ds[1].chain && ds[1].setvar.None?
  {
    HeaderStays(input);
    var header := EmitHeader(input.route);
    assert Compiled(input).directives[..2][0] == header[0] && Compiled(input).directives[..2][1] == header[1];
  }

  predicate StartsWith(d: Draft, header: seq<Directive>) {
    |header| <= |d.directives| && d.directives[..|header|] == header
  }

  lemma {:induction false} BotsStart(d: Draft, bots: seq<VerifiedBot>, header: seq<Directive>)
    requires StartsWith(d, header)
    ensures StartsWith(AddBots(d, bots), header)
  {
    if |bots| > 0 { BotsStart(d, bots[..|bots| - 1], header); }
  }

  lemma {:induction false} SourcesStart(d: Draft, sources: seq<TrustedSource>, header: seq<Directive>)
    requires StartsWith(d, header)
    ensures StartsWith(AddAllTrusted(d, sources), header)
  {
    if |sources| > 0 { SourcesStart(d, sources[..|sources| - 1], header); }
  }

  lemma {:induction false} DeniesStart(d: Draft, rules: seq<DenyRule>, header: seq<Directive>)
    requires StartsWith(d, header)
    ensures StartsWith(AddDenies(d, rules), header)
  {
    if |rules| > 0 { DeniesStart(d, rules[..|rules| - 1], header); }
  }

  lemma {:induction false} RatesStart(d: Draft, rules: seq<RateLimitRule>, header: seq<Directive>)
    requires StartsWith(d, header)
    ensures StartsWith(AddRates(d, rules), header)
  {
    if |rules| > 0 { RatesStart(d, rules[..|rules| - 1], header); }
  }

  lemma HeaderStays(input: CompileInput)
    ensures StartsWith(AllSteps(input), EmitHeader(input.route))
  {
    var header := EmitHeader(input.route);
    BotsStart(Header(input), BotsOf(input), header);
    SourcesStart(AddInternal(AddBots(Header(input), BotsOf(input))), input.trustedSources, header);
    DeniesStart(AllowSteps(input), input.denyList, header);
    RatesStart(DenySteps(input), input.rateLimits, header);
  }

  // ---------------------------------------------------------------- the ladder

  /** What each stage of the ladder does about a request. */
  predicate ActsAs(step: LadderStep, policy: Option<EdgePolicy>) {
    match step.stage
    case AllowVerifiedBot => step.action == Allow
    case AllowInternal => step.action == Allow
    case AllowTrustedIp => step.action == Allow
    case BlockDenyList => step.action == Enforcement.Block
    case RateLimited => step.action == Log
    case Challenged => step.action == Challenge
    case Waf => policy.Some? && step.action == policy.value.action
    case Protect => step.action == Challenge
  }

  predicate AllAct(ladder: seq<LadderStep>, policy: Option<EdgePolicy>) {
    forall k :: 0 <= k < |ladder| ==> ActsAs(ladder[k], policy)
  }

  /** How many steps of this stage there are. */
  function Steps(ladder: seq<LadderStep>, stage: Stage): nat {
    if |ladder| == 0 then 0
    else Steps(ladder[..|ladder| - 1], stage) + if ladder[|ladder| - 1].stage == stage then 1 else 0
  }

  lemma StepsPushed(ladder: seq<LadderStep>, step: LadderStep, stage: Stage)
    ensures Steps(ladder + [step], stage) == Steps(ladder, stage) + if step.stage == stage then 1 else 0
  {
    assert (ladder + [step])[..|ladder|] == ladder;
  }

  /** A section of the ladder grown by `n` steps of one stage. */
  predicate Grew(d: Draft, e: Draft, stage: Stage, n: nat, policy: Option<EdgePolicy>) {
    && (AllAct(d.ladder, policy) ==> AllAct(e.ladder, policy))
    && forall other :: Steps(e.ladder, other) == Steps(d.ladder, other) + if other == stage then n else 0
  }

  lemma PushGrows(d: Draft, stage: Stage, action: Enforcement, emitted: seq<Directive>, policy: Option<EdgePolicy>)
    requires ActsAs(LadderStep(d.nextId, stage, action, emitted), policy)
    ensures Grew(d, Push(d, stage, action, emitted), stage, 1, policy)
  {
    var step := LadderStep(d.nextId, stage, action, emitted);
    forall other ensures Steps(d.ladder + [step], other) == Steps(d.ladder, other) + if other == stage then 1 else 0 {
      StepsPushed(d.ladder, step, other);
    }
  }

  lemma {:induction false} BotsGrow(d: Draft, bots: seq<VerifiedBot>, policy: Option<EdgePolicy>)
    ensures Grew(d, AddBots(d, bots), AllowVerifiedBot, |Only(bots, ValidBot)|, policy)
  {
    if |bots| > 0 {
      var init, last := bots[..|bots| - 1], bots[|bots| - 1];
      BotsGrow(d, init, policy);
      PushGrows(AddBots(d, init), AllowVerifiedBot, Allow, EmitBot(AddBots(d, init).nextId, last), policy);
    }
  }

  lemma {:induction false} SourcesGrow(d: Draft, sources: seq<TrustedSource>, policy: Option<EdgePolicy>)
    ensures Grew(d, AddAllTrusted(d, sources), AllowTrustedIp, |Only(sources, ValidSource)|, policy)
  {
    if |sources| > 0 {
      var init, last := sources[..|sources| - 1], sources[|sources| - 1];
      SourcesGrow(d, init, policy);
      PushGrows(AddAllTrusted(d, init), AllowTrustedIp, Allow, EmitTrusted(AddAllTrusted(d, init).nextId, last),
                policy);
    }
  }

  lemma {:induction false} DeniesGrow(d: Draft, rules: seq<DenyRule>, policy: Option<EdgePolicy>)
    ensures Grew(d, AddDenies(d, rules), BlockDenyList, |Only(rules, ValidDeny)|, policy)
  {
    if |rules| > 0 {
      var init, last := rules[..|rules| - 1], rules[|rules| - 1];
      DeniesGrow(d, init, policy);
      PushGrows(AddDenies(d, init), BlockDenyList, Enforcement.Block, EmitDeny(AddDenies(d, init).nextId, last),
                policy);
    }
  }

  lemma {:induction false} RatesGrow(d: Draft, rules: seq<RateLimitRule>, policy: Option<EdgePolicy>)
    ensures Grew(d, AddRates(d, rules), RateLimited, |Only(rules, ValidRate)|, policy)
  {
    if |rules| > 0 {
      var init, last := rules[..|rules| - 1], rules[|rules| - 1];
      RatesGrow(d, init, policy);
      if ValidRate(last) {
        PushGrows(AddRates(d, init), RateLimited, Log, EmitRate(AddRates(d, init).nextId, last), policy);
      }
    }
  }

  lemma {:induction false} OnlyBoth<T>(a: seq<T>, b: seq<T>, valid: T -> bool)
    ensures Only(a + b, valid) == Only(a, valid) + Only(b, valid)
  {
    if |b| == 0 {
      assert a + b == a;
    } else {
      OnlyBoth(a, b[..|b| - 1], valid);
      assert (a + b)[..|a + b| - 1] == a + b[..|b| - 1];
    }
  }

  /** A curated bot, its suffix made of two labels. */
  lemma CuratedBotIsValid(name: string, userAgent: string, site: string, top: string)
    requires IsBotName(name) && IsUaValue(userAgent) && (IsLabel(site) || IsHost(site)) && IsLabel(top)
    ensures ValidBot(VerifiedBot(name, userAgent, site + "." + top))
  {
    LabelsMakeAHost(site, top);
  }

  lemma SearchEnginesAreValid(i: nat)
    requires i < 3
    ensures ValidBot(VERIFIED_BOTS[i])
  {
    CuratedNames();
    match i
    case 0 => CuratedBotIsValid("googlebot", "Googlebot", "googlebot", "com");
    case 1 => CuratedBotIsValid("google-other", "Google", "google", "com");
    case 2 =>
      LabelsMakeAHost("search", "msn");
      CuratedBotIsValid("bingbot", "bingbot", "search" + "." + "msn", "com");
  }

  lemma OtherSearchEnginesAreValid(i: nat)
    requires 3 <= i < 5
    ensures ValidBot(VERIFIED_BOTS[i])
  {
    CuratedNames();
    match i
    case 3 => CuratedBotIsValid("duckduckbot", "DuckDuckBot", "duckduckgo", "com");
    case 4 => CuratedBotIsValid("yandexbot", "YandexBot", "yandex", "ru");
  }

  lemma LastSearchEnginesAreValid(i: nat)
    requires 5 <= i < 7
    ensures ValidBot(VERIFIED_BOTS[i])
  {
    CuratedNames();
    match i
    case 5 => CuratedBotIsValid("baiduspider", "Baiduspider", "baidu", "com");
    case 6 =>
      LabelsMakeAHost("applebot", "apple");
      CuratedBotIsValid("applebot", "Applebot", "applebot" + "." + "apple", "com");
  }

  lemma MonitorsAreValid(i: nat)
    requires 7 <= i < |VERIFIED_BOTS|
    ensures ValidBot(VERIFIED_BOTS[i])
  {
    CuratedNames();
    match i
    case 7 => CuratedBotIsValid("uptimerobot", "UptimeRobot", "uptimerobot", "com");
    case 8 => CuratedBotIsValid("pingdom", "Pingdom", "pingdom", "com");
  }

  /** No entry of the curated directory is dropped: all nine validate. */
  lemma CuratedDirectoryIsValid()
    ensures Only(VERIFIED_BOTS, ValidBot) == VERIFIED_BOTS && |VERIFIED_BOTS| == 9
  {
    forall i | 0 <= i < |VERIFIED_BOTS| ensures ValidBot(VERIFIED_BOTS[i]) {
      if i < 3 {
        SearchEnginesAreValid(i);
      } else if i < 5 {
        OtherSearchEnginesAreValid(i);
      } else if i < 7 {
        LastSearchEnginesAreValid(i);
      } else {
        MonitorsAreValid(i);
      }
    }
    AllOfThemKept(VERIFIED_BOTS, ValidBot);
  }

  lemma CuratedNames()
    ensures "googlebot" + "." + "com" == "googlebot.com" && "google" + "." + "com" == "google.com"
    ensures "search" + "." + "msn" + "." + "com" == "search.msn.com"
    ensures "duckduckgo" + "." + "com" == "duckduckgo.com" && "yandex" + "." + "ru" == "yandex.ru"
    ensures "baidu" + "." + "com" == "baidu.com"
    ensures "applebot" + "." + "apple" + "." + "com" == "applebot.apple.com"
    ensures "uptimerobot" + "." + "com" == "uptimerobot.com" && "pingdom" + "." + "com" == "pingdom.com"
  {
  }

  lemma {:induction false} AllOfThemKept<T>(items: seq<T>, valid: T -> bool)
    requires forall i :: 0 <= i < |items| ==> valid(items[i])
    ensures Only(items, valid) == items
  {
    if |items| > 0 { AllOfThemKept(items[..|items| - 1], valid); }
  }

  /** How many steps of a stage the policy calls for. */
  function Expected(input: CompileInput, stage: Stage): nat {
    match stage
    case AllowVerifiedBot => |Only(VERIFIED_BOTS, ValidBot)| + |Only(input.botAllowList, ValidBot)|
    case AllowInternal => 1
    case AllowTrustedIp => |Only(input.trustedSources, ValidSource)|
    case BlockDenyList => |Only(input.denyList, ValidDeny)|
    case RateLimited => |Only(input.rateLimits, ValidRate)|
    case Challenged => if input.attackMode then 1 else 0
    case Waf => if input.policy.Some? then 1 else 0
    case Protect => 0
  }

  lemma AllowStepsGrow(input: CompileInput)
    ensures AllAct(AllowSteps(input).ladder, input.policy)
    ensures forall stage :: Steps(AllowSteps(input).ladder, stage) ==
              if Rank(stage) <= 2 then Expected(input, stage) else 0
  {
    var d := AddBots(Header(input), BotsOf(input));
    BotsGrow(Header(input), BotsOf(input), input.policy);
    OnlyBoth(VERIFIED_BOTS, input.botAllowList, ValidBot);
    PushGrows(d, AllowInternal, Allow, EmitInternal(d.nextId), input.policy);
    SourcesGrow(AddInternal(d), input.trustedSources, input.policy);
  }

  lemma LimitStepsGrow(input: CompileInput)
    ensures AllAct(LimitSteps(input).ladder, input.policy)
    ensures forall stage :: Steps(LimitSteps(input).ladder, stage) ==
              if Rank(stage) <= 5 then Expected(input, stage) else 0
  {
    AllowStepsGrow(input);
    DeniesGrow(AllowSteps(input), input.denyList, input.policy);
    RatesGrow(DenySteps(input), input.rateLimits, input.policy);
    var d := AddRates(DenySteps(input), input.rateLimits);
    if input.attackMode { PushGrows(d, Challenged, Challenge, EmitChallenge(d.nextId), input.policy); }
  }

  lemma AllStepsGrow(input: CompileInput)
    ensures AllAct(AllSteps(input).ladder, input.policy)
    ensures forall stage :: Steps(AllSteps(input).ladder, stage) == Expected(input, stage)
  {
    LimitStepsGrow(input);
    if input.policy.Some? {
      var d := AddThreshold(LimitSteps(input), input.policy.value);
      PushGrows(d, Waf, input.policy.value.action, EmitWaf(LimitSteps(input).nextId + 1, input.policy.value),
                input.policy);
    }
  }

  /** The route is the first to name its host, and asks for a valid posture that protects. */
  predicate FirstProtects(routes: seq<EdgeRoute>, i: nat) {
    i < |routes| && Protects(routes[i]) && forall j :: 0 <= j < i ==> routes[j].host != routes[i].host
  }

  predicate SomeHostProtects(routes: seq<EdgeRoute>) {
    exists i :: 0 <= i < |routes| && FirstProtects(routes, i)
  }

  lemma ProtectsGrow(init: seq<EdgeRoute>, last: EdgeRoute)
    ensures SomeHostProtects(init + [last]) <==> SomeHostProtects(init) || (Protects(last) && !Names(init, last.host))
  {
    var routes := init + [last];
    forall i | 0 <= i < |init| ensures FirstProtects(init, i) <==> FirstProtects(routes, i) {
      assert routes[i] == init[i] && forall j :: 0 <= j < i ==> routes[j] == init[j];
    }
    assert FirstProtects(routes, |init|) <==> Protects(last) && !Names(init, last.host) by {
      assert routes[|init|] == last && forall j :: 0 <= j < |init| ==> routes[j] == init[j];
    }
  }

  /** Some fragment is protected exactly when some host's first route asks for it. */
  lemma {:induction false} ProtectedExactly(input: CompileInput, routes: seq<EdgeRoute>)
    ensures ProtectedAny(Fragments(input, routes)) <==> SomeHostProtects(routes)
  {
    if |routes| > 0 {
      var init, last := routes[..|routes| - 1], routes[|routes| - 1];
      ProtectedExactly(input, init);
      FragmentServes(input, last);
      ProtectedGrows(Fragments(input, init), FragmentOf(input, last));
      ProtectsGrow(init, last);
      assert routes == init + [last];
    }
  }

  /**
   The ladder holds a step for every valid entry and mode, each acting as its stage
   should, and one `protect` step exactly when some host's first route asks for a valid
   posture that protects.
   */
  lemma LadderIsComplete(input: CompileInput)
    ensures AllAct(Compiled(input).ladder, input.policy)
    ensures forall stage :: stage != Protect ==> Steps(Compiled(input).ladder, stage) == Expected(input, stage)
    ensures Steps(Compiled(input).ladder, Protect) == if SomeHostProtects(RoutesOf(input)) then 1 else 0
  {
    AllStepsGrow(input);
    ProtectedExactly(input, RoutesOf(input));
    var draft := AllSteps(input);
    forall stage ensures Steps(draft.ladder + [ProtectStep(draft.nextId)], stage)
                      == Steps(draft.ladder, stage) + if stage == Protect then 1 else 0
    {
      StepsPushed(draft.ladder, ProtectStep(draft.nextId), stage);
    }
    assert draft.ladder + [] == draft.ladder;
  }

  // ---------------------------------------------------------------- the challenge's mark

  /** The directive sets this variable. */
  predicate Sets(d: Directive, v: TxVar) {
    match d
    case EngineOn => false
    case Rule(_, _, _, _, _, _, _, setvar) => setvar.Some? && setvar.value.v == v
    case Action(_, _, sets) => exists i :: 0 <= i < |sets| && sets[i].v == v
  }

  predicate NoneSets(ds: seq<Directive>, v: TxVar) {
    forall i :: 0 <= i < |ds| ==> !Sets(ds[i], v)
  }

  lemma {:induction false} BotsMarkNothing(d: Draft, bots: seq<VerifiedBot>)
    requires NoneSets(d.directives, ChallengeBrowsers)
    ensures NoneSets(AddBots(d, bots).directives, ChallengeBrowsers)
  {
    if |bots| > 0 { BotsMarkNothing(d, bots[..|bots| - 1]); }
  }

  lemma {:induction false} SourcesMarkNothing(d: Draft, sources: seq<TrustedSource>)
    requires NoneSets(d.directives, ChallengeBrowsers)
    ensures NoneSets(AddAllTrusted(d, sources).directives, ChallengeBrowsers)
  {
    if |sources| > 0 { SourcesMarkNothing(d, sources[..|sources| - 1]); }
  }

  lemma {:induction false} DeniesMarkNothing(d: Draft, rules: seq<DenyRule>)
    requires NoneSets(d.directives, ChallengeBrowsers)
    ensures NoneSets(AddDenies(d, rules).directives, ChallengeBrowsers)
  {
    if |rules| > 0 { DeniesMarkNothing(d, rules[..|rules| - 1]); }
  }

  lemma {:induction false} RatesMarkNothing(d: Draft, rules: seq<RateLimitRule>)
    requires NoneSets(d.directives, ChallengeBrowsers)
    ensures NoneSets(AddRates(d, rules).directives, ChallengeBrowsers)
  {
    if |rules| > 0 { RatesMarkNothing(d, rules[..|rules| - 1]); }
  }

  /** A directive that marks every request to be challenged, in the first phase. */
  predicate Challenges(d: Directive) {
    d.Action? && d.actionPhase == 1 && d.sets == [SetVar(ChallengeBrowsers, "1")]
  }

  /**
   The rules mark requests to be challenged exactly in attack mode, every request, and
   set that mark to nothing else.
   */
  lemma ChallengeIsMarkedExactly(input: CompileInput)
    ensures var ds := Compiled(input).directives;
            && (input.attackMode <==> exists i :: 0 <= i < |ds| && Challenges(ds[i]))
            && forall i :: 0 <= i < |ds| && Sets(ds[i], ChallengeBrowsers) ==> Challenges(ds[i])
  {
    BotsMarkNothing(Header(input), BotsOf(input));
    SourcesMarkNothing(AddInternal(AddBots(Header(input), BotsOf(input))), input.trustedSources);
    DeniesMarkNothing(AllowSteps(input), input.denyList);
    RatesMarkNothing(DenySteps(input), input.rateLimits);
    var rated := AddRates(DenySteps(input), input.rateLimits);
    var ds := Compiled(input).directives;
    assert |ds| >= |rated.directives| && forall i :: 0 <= i < |rated.directives| ==> ds[i] == rated.directives[i];
    if input.attackMode {
      assert ds[|rated.directives|] == EmitChallenge(rated.nextId)[0];
    }
    if i :| 0 <= i < |rated.directives| && Challenges(ds[i]) {
      assert ds[i].sets[0].v == ChallengeBrowsers && Sets(ds[i], ChallengeBrowsers);
    }
  }

  // ---------------------------------------------------------------- publication

  /** After a publication the published host is served as its route asks, under the organization's policy. */
  lemma PublishedIsServed(policy: CompileInput, route: EdgeRoute)
    ensures var found := FragmentFor(Compiled(Republished(policy, route)).envoyRoutes, route.host);
            found.Some? && Serves(found.value, route, policy)
    ensures Compiled(Republished(policy, route)).envoyConfig.host == route.host
  {
    PublishKeepsOtherHosts(policy, route, route.host);
    FragmentServes(policy, route);
    PrimaryLeads(Republished(policy, route));
  }

  /**
   An organization without a policy: the host is served, unprotected by rules of anyone's
   own, and challenges nobody.
   */
  lemma BareIsServed(route: EdgeRoute)
    ensures var c := Compiled(Bare(route));
            && |c.envoyRoutes| == 1 && c.envoyConfig == c.envoyRoutes[0]
            && Serves(c.envoyConfig, route, Bare(route))
            && !c.envoyConfig.wafEnabled && !c.envoyConfig.challengeBrowsers
            && c.envoyConfig.skipChallengeAddresses == []
            && c.rateLimits == []
            && forall stage :: stage in {AllowTrustedIp, BlockDenyList, RateLimited, Challenged, Waf} ==>
                 Steps(c.ladder, stage) == 0
  {
    PrimaryLeads(Bare(route));
    LadderIsComplete(Bare(route));
    var input := Bare(route);
    EveryValidLimitIsEnforced(input);
    assert forall stage :: stage in {AllowTrustedIp, BlockDenyList, RateLimited, Challenged, Waf} ==>
      Expected(input, stage) == 0;
    assert RoutesOf(Bare(route)) == [route];
    assert Fragments(Bare(route), [route]) == [FragmentOf(Bare(route), route)] by {
      assert [route][..0] == [];
    }
  }

  // ---------------------------------------------------------------- which origins are private

  predicate AllDigit(s: string) {
    forall i :: 0 <= i < |s| ==> '0' <= s[i] <= '9'
  }

  /** A number up to its dot is recognised exactly by being that number. */
  lemma NumberRecognised(x: string, literal: string, tail: string)
    requires AllDigit(x) && AllDigit(literal)
    ensures literal + "." <= x + "." + tail <==> x == literal
  {
    var s := x + "." + tail;
    assert s[|x|] == '.' && s[..|x|] == x && forall i :: 0 <= i < |x| ==> s[i] == x[i];
    var start := literal + ".";
    assert start[|literal|] == '.' && forall i :: 0 <= i < |literal| ==> start[i] == literal[i];
    assert start <= s ==> forall i :: 0 <= i < |start| ==> s[i] == start[i];
  }

  /** The same number twice over. */
  lemma NumbersRecognised(x: string, y: string, first: string, second: string, tail: string)
    requires AllDigit(x) && AllDigit(y) && AllDigit(first) && AllDigit(second)
    ensures first + "." + (second + ".") <= x + "." + (y + "." + tail) <==> x == first && y == second
  {
    var s, rest := x + "." + (y + "." + tail), y + "." + tail;
    NumberRecognised(x, first, rest);
    NumberRecognised(y, second, tail);
    assert s[|x| + 1..] == rest;
    if first + "." + (second + ".") <= s {
      assert first + "." <= s;
      assert s[|x| + 1..|x| + 1 + |second + "."|] == second + ".";
    }
  }

  lemma DecimalIs(n: nat, m: nat)
    ensures Decimal(n) == Decimal(m) <==> n == m
    ensures AllDigit(Decimal(n))
  {
    DecimalSpells(n);
    DecimalSpells(m);
  }

  /** The ranges the edge may publish an origin in. */
  predicate PrivateRange(a: nat, b: nat) {
    a == 10 || a == 127 || (a == 172 && 16 <= b <= 31) || (a == 192 && b == 168) || (a == 169 && b == 254)
  }

  lemma Literals()
    ensures Decimal(10) == "10" && Decimal(127) == "127" && Decimal(172) == "172" && Decimal(192) == "192"
    ensures Decimal(168) == "168" && Decimal(169) == "169" && Decimal(254) == "254"
  {
  }

  lemma TwoDigits(b: nat)
    requires b < 256
    ensures |Decimal(b)| == 2 <==> 10 <= b < 100
    ensures 10 <= b < 100 ==> Decimal(b) == [DigitChar(b / 10), DigitChar(b % 10)]
  {
  }

  /** The second number of a `172.` address is one of sixteen. */
  lemma SixteenToThirtyOne(b: nat, rest: string)
    requires b < 256
    ensures var s := Decimal(b) + "." + rest;
            |s| >= 3 && s[2] == '.'
            && ((s[0] == '1' && '6' <= s[1] <= '9') || (s[0] == '2' && IsDigit(s[1]))
                || (s[0] == '3' && '0' <= s[1] <= '1'))
            <==> 16 <= b <= 31
  {
    var y := Decimal(b);
    var s := y + "." + rest;
    DecimalIs(b, b);
    TwoDigits(b);
    assert s[|y|] == '.' && forall i :: 0 <= i < |y| ==> s[i] == y[i];
  }

  /** A dotted address is taken for a private one exactly when its first two numbers are in a private range. */
  lemma PrivateExactly(a: nat, b: nat, rest: string)
    requires a < 256 && b < 256
    ensures IsPrivateOrigin(Decimal(a) + "." + (Decimal(b) + "." + rest)) <==> PrivateRange(a, b)
  {
    var x, y := Decimal(a), Decimal(b);
    var tail := y + "." + rest;
    var s := x + "." + tail;
    Literals();
    DecimalIs(a, 10);
    DecimalIs(a, 127);
    DecimalIs(a, 172);
    DecimalIs(a, 192);
    DecimalIs(a, 169);
    DecimalIs(b, 168);
    DecimalIs(b, 254);
    NumberRecognised(x, "10", tail);
    NumberRecognised(x, "127", tail);
    NumberRecognised(x, "172", tail);
    NumbersRecognised(x, y, "192", "168", rest);
    NumbersRecognised(x, y, "169", "254", rest);
    assert "10" + "." == "10." && "127" + "." == "127." && "172" + "." == "172.";
    assert "192" + "." + ("168" + ".") == "192.168." && "169" + "." + ("254" + ".") == "169.254.";
    SixteenToThirtyOne(b, rest);
    assert "172." <= s ==> s[4..] == tail;
    assert "172." <= s <==> |s| >= 4 && s[..4] == "172.";
    assert '0' <= s[0] <= '9';
  }
}
