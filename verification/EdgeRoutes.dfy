/** Which hosts an artifact serves, and what publishing one of them does to the others. */
module EdgeRoutes {
  import opened Contracts
  import opened EdgeInput
  import opened SecLang
  import opened EdgeCompiler

  /** The first route that names a host: the one that decides its fragment. */
  function FirstNamed(routes: seq<EdgeRoute>, host: string): (found: Option<EdgeRoute>)
    ensures found.Some? <==> Names(routes, host)
    ensures found.Some? ==>
              exists i :: 0 <= i < |routes| && routes[i] == found.value && found.value.host == host
                && forall j :: 0 <= j < i ==> routes[j].host != host
  {
    if |routes| == 0 then None
    else
      NamesGrow(routes, |routes| - 1);
      assert routes[..|routes|] == routes;
      var before := FirstNamed(routes[..|routes| - 1], host);
      if before.Some? then before
      else if routes[|routes| - 1].host == host then Some(routes[|routes| - 1])
      else None
  }

  /** The fragment an artifact carries for a host. */
  function FragmentFor(fragments: seq<Fragment>, host: string): (found: Option<Fragment>)
    ensures found.Some? <==> exists k :: 0 <= k < |fragments| && fragments[k].host == host
    ensures found.Some? ==> found.value in fragments && found.value.host == host
  {
    if |fragments| == 0 then None
    else
      var before := FragmentFor(fragments[..|fragments| - 1], host);
      if before.Some? then before
      else if fragments[|fragments| - 1].host == host then Some(fragments[|fragments| - 1])
      else None
  }

  predicate HostsDistinct(fragments: seq<Fragment>) {
    forall k, l :: 0 <= k < l < |fragments| ==> fragments[k].host != fragments[l].host
  }

  /** Each named host gets one fragment, compiled from the first route that names it, and no other host gets any. */
  lemma {:induction false} FirstRouteDecides(input: CompileInput, routes: seq<EdgeRoute>, host: string)
    ensures HostsDistinct(Fragments(input, routes))
    ensures var first := FirstNamed(routes, host);
            FragmentFor(Fragments(input, routes), host) ==
              if first.Some? then Some(FragmentOf(input, first.value)) else None
  {
    if |routes| > 0 {
      var init, last := routes[..|routes| - 1], routes[|routes| - 1];
      FirstRouteDecides(input, init, host);
      FirstRouteDecides(input, init, last.host);
      var before := Fragments(input, init);
      if !Names(init, last.host) {
        assert (before + [FragmentOf(input, last)])[..|before|] == before;
        forall k | 0 <= k < |before| ensures before[k].host != last.host {
        }
      }
    }
  }

  predicate AlikeInACluster(a: char, b: char) {
    a == b || ((a == '.' || a == '-') && (b == '.' || b == '-'))
  }

  /** Two hosts name one cluster exactly when they differ at most in dots against dashes. */
  lemma ClusterNamesCollideExactly(g: string, h: string)
    ensures ClusterOf(g) == ClusterOf(h) <==> |g| == |h| && forall i :: 0 <= i < |g| ==> AlikeInACluster(g[i], h[i])
  {
    var prefix := |"origin-"|;
    assert |ClusterOf(g)| == prefix + |g| && |ClusterOf(h)| == prefix + |h|;
    forall i | 0 <= i < |g| && |g| == |h|
      ensures ClusterOf(g)[prefix + i] == ClusterOf(h)[prefix + i] <==> AlikeInACluster(g[i], h[i])
    {
    }
    if |g| == |h| && forall i :: 0 <= i < |g| ==> AlikeInACluster(g[i], h[i]) {
      assert forall i :: prefix <= i < prefix + |g| ==> ClusterOf(g)[i] == ClusterOf(h)[prefix + (i - prefix)];
      assert ClusterOf(g) == ClusterOf(h);
    }
  }

  lemma {:induction false} SplitOne(part: string, sep: char)
    requires sep !in part
    ensures Split(part, sep) == [part]
  {
    if |part| > 0 {
      SplitOne(part[..|part| - 1], sep);
      assert part == part[..|part| - 1] + [part[|part| - 1]];
    }
  }

  /** What follows the last separator is a part of its own. */
  lemma {:induction false} SplitLast(s: string, part: string, sep: char)
    requires sep !in part
    ensures Split(s + [sep] + part, sep) == Split(s, sep) + [part]
  {
    var whole := s + [sep] + part;
    if |part| == 0 {
      assert whole[..|whole| - 1] == s;
    } else {
      SplitLast(s, part[..|part| - 1], sep);
      assert whole[..|whole| - 1] == s + [sep] + part[..|part| - 1];
      assert part == part[..|part| - 1] + [part[|part| - 1]];
    }
  }

  lemma LabelsMakeAHost(s: string, part: string)
    requires (IsLabel(s) || IsHost(s)) && IsLabel(part)
    ensures IsHost(s + "." + part)
  {
    if IsLabel(s) { SplitOne(s, '.'); }
    SplitLast(s, part, '.');
    assert s + ['.'] + part == s + "." + part;
  }

  /** And two valid hosts do: the grammar that admits hosts does not keep their clusters apart. */
  lemma HostsShareACluster()
    ensures IsHost("a.b.com") && IsHost("a-b.com") && ClusterOf("a.b.com") == ClusterOf("a-b.com")
  {
    LabelsMakeAHost("a", "b");
    LabelsMakeAHost("a" + "." + "b", "com");
    LabelsMakeAHost("a-b", "com");
    assert "a" + "." + "b" + "." + "com" == "a.b.com" && "a-b" + "." + "com" == "a-b.com";
    ClusterNamesCollideExactly("a.b.com", "a-b.com");
  }

  // ---------------------------------------------------------------- publishing one host

  function Without(routes: seq<EdgeRoute>, host: string): seq<EdgeRoute> {
    if |routes| == 0 then []
    else
      var before := Without(routes[..|routes| - 1], host);
      if routes[|routes| - 1].host != host then before + [routes[|routes| - 1]] else before
  }

  /** The policy an organization has, recompiled with this host as its primary. */
  function Republished(policy: CompileInput, route: EdgeRoute): CompileInput {
    policy.(route := route, routes := Without(RoutesOf(policy), route.host))
  }

  /** An organization without a policy: a route, and nothing to enforce. */
  function Bare(route: EdgeRoute): CompileInput {
    CompileInput(route, [], None, false, [], [], [], [])
  }

  lemma FirstOfAppended(routes: seq<EdgeRoute>, last: EdgeRoute, host: string)
    ensures FirstNamed(routes + [last], host)
         == if FirstNamed(routes, host).Some? then FirstNamed(routes, host)
            else if last.host == host then Some(last) else None
  {
    assert (routes + [last])[..|routes|] == routes;
  }

  lemma {:induction false} WithoutKeeps(routes: seq<EdgeRoute>, gone: string, host: string)
    requires host != gone
    ensures FirstNamed(Without(routes, gone), host) == FirstNamed(routes, host)
  {
    if |routes| > 0 {
      var init, last := routes[..|routes| - 1], routes[|routes| - 1];
      WithoutKeeps(init, gone, host);
      FirstOfAppended(init, last, host);
      assert init + [last] == routes;
      if last.host != gone { FirstOfAppended(Without(init, gone), last, host); }
    }
  }

  lemma {:induction false} FirstOfPrepended(first: EdgeRoute, rest: seq<EdgeRoute>, host: string)
    ensures FirstNamed([first] + rest, host) == if first.host == host then Some(first) else FirstNamed(rest, host)
  {
    if |rest| == 0 {
      assert [first] + rest == [] + [first];
      FirstOfAppended([], first, host);
    } else {
      var init, last := rest[..|rest| - 1], rest[|rest| - 1];
      FirstOfPrepended(first, init, host);
      FirstOfAppended([first] + init, last, host);
      FirstOfAppended(init, last, host);
      assert [first] + rest == [first] + init + [last] && init + [last] == rest;
    }
  }

  /**
   Publishing one host keeps every other: the artifact's hosts are the policy's and
   the published one, each once; the published host is compiled from the published
   route; and every other host's fragment is what it was.
   */
  lemma PublishKeepsOtherHosts(policy: CompileInput, route: EdgeRoute, host: string)
    ensures var before, after := Compiled(policy).envoyRoutes, Compiled(Republished(policy, route)).envoyRoutes;
            && HostsDistinct(after)
            && FragmentFor(after, host) ==
                 if host == route.host then Some(FragmentOf(policy, route)) else FragmentFor(before, host)
  {
    var again := Republished(policy, route);
    FirstRouteDecides(policy, RoutesOf(policy), host);
    FirstRouteDecides(again, RoutesOf(again), host);
    FirstOfPrepended(route, again.routes, host);
    if host != route.host { WithoutKeeps(RoutesOf(policy), route.host, host); }
  }

  /** Two drafts alike but for the header's own rule, grown by the same steps. */
  predicate SameBut(d: Draft, e: Draft, n: nat) {
    && |d.directives| >= n && |e.directives| >= n && d.directives[n..] == e.directives[n..]
    && d.ladder == e.ladder && d.rateLimits == e.rateLimits && d.nextId == e.nextId
  }

  lemma PushAlike(d: Draft, e: Draft, n: nat, stage: Stage, action: Enforcement, emitted: seq<Directive>)
    requires SameBut(d, e, n)
    ensures SameBut(Push(d, stage, action, emitted), Push(e, stage, action, emitted), n)
  {
    assert (d.directives + emitted)[n..] == d.directives[n..] + emitted;
    assert (e.directives + emitted)[n..] == e.directives[n..] + emitted;
  }

  lemma {:induction false} BotsAlike(d: Draft, e: Draft, n: nat, bots: seq<VerifiedBot>)
    requires SameBut(d, e, n)
    ensures SameBut(AddBots(d, bots), AddBots(e, bots), n)
  {
    if |bots| > 0 {
      var init := bots[..|bots| - 1];
      BotsAlike(d, e, n, init);
      PushAlike(AddBots(d, init), AddBots(e, init), n, AllowVerifiedBot, Allow,
                EmitBot(AddBots(d, init).nextId, bots[|bots| - 1]));
    }
  }

  lemma {:induction false} SourcesAlike(d: Draft, e: Draft, n: nat, sources: seq<TrustedSource>)
    requires SameBut(d, e, n)
    ensures SameBut(AddAllTrusted(d, sources), AddAllTrusted(e, sources), n)
  {
    if |sources| > 0 {
      var init := sources[..|sources| - 1];
      SourcesAlike(d, e, n, init);
      PushAlike(AddAllTrusted(d, init), AddAllTrusted(e, init), n, AllowTrustedIp, Allow,
                EmitTrusted(AddAllTrusted(d, init).nextId, sources[|sources| - 1]));
    }
  }

  lemma {:induction false} DeniesAlike(d: Draft, e: Draft, n: nat, rules: seq<DenyRule>)
    requires SameBut(d, e, n)
    ensures SameBut(AddDenies(d, rules), AddDenies(e, rules), n)
  {
    if |rules| > 0 {
      var init := rules[..|rules| - 1];
      DeniesAlike(d, e, n, init);
      PushAlike(AddDenies(d, init), AddDenies(e, init), n, BlockDenyList, Block,
                EmitDeny(AddDenies(d, init).nextId, rules[|rules| - 1]));
    }
  }

  lemma {:induction false} RatesAlike(d: Draft, e: Draft, n: nat, rules: seq<RateLimitRule>)
    requires SameBut(d, e, n)
    ensures SameBut(AddRates(d, rules), AddRates(e, rules), n)
  {
    if |rules| > 0 {
      var init, last := rules[..|rules| - 1], rules[|rules| - 1];
      RatesAlike(d, e, n, init);
      if ValidRate(last) {
        PushAlike(AddRates(d, init), AddRates(e, init), n, RateLimited, Log, EmitRate(AddRates(d, init).nextId, last));
      }
    }
  }

  lemma WafAlike(d: Draft, e: Draft, n: nat, policy: Option<EdgePolicy>)
    requires SameBut(d, e, n)
    ensures SameBut(AddWaf(d, policy), AddWaf(e, policy), n)
  {
    if policy.Some? {
      var threshold := EmitThreshold(d.nextId, policy.value);
      assert (d.directives + threshold)[n..] == d.directives[n..] + threshold;
      assert (e.directives + threshold)[n..] == e.directives[n..] + threshold;
      PushAlike(d.(directives := d.directives + threshold, nextId := d.nextId + 1),
                e.(directives := e.directives + threshold, nextId := e.nextId + 1), n,
                Waf, policy.value.action, EmitWaf(d.nextId + 1, policy.value));
    }
  }

  /** A publication carries the policy's whole ruleset: only the rule that scopes the path may differ. */
  lemma PublishKeepsTheRules(policy: CompileInput, route: EdgeRoute)
    ensures SameBut(AllSteps(policy), AllSteps(Republished(policy, route)), 2)
  {
    var again := Republished(policy, route);
    BotsAlike(Header(policy), Header(again), 2, BotsOf(policy));
    var d, e := AddBots(Header(policy), BotsOf(policy)), AddBots(Header(again), BotsOf(policy));
    PushAlike(d, e, 2, AllowInternal, Allow, EmitInternal(d.nextId));
    SourcesAlike(AddInternal(d), AddInternal(e), 2, policy.trustedSources);
    DeniesAlike(AllowSteps(policy), AllowSteps(again), 2, policy.denyList);
    RatesAlike(DenySteps(policy), DenySteps(again), 2, policy.rateLimits);
    d, e := AddRates(DenySteps(policy), policy.rateLimits), AddRates(DenySteps(again), policy.rateLimits);
    if policy.attackMode { PushAlike(d, e, 2, Challenged, Challenge, EmitChallenge(d.nextId)); }
    WafAlike(LimitSteps(policy), LimitSteps(again), 2, policy.policy);
  }

  /**
   Publish a route: refuse what cannot be published, otherwise hand the edge the
   organization's policy with this host in it.
   */
  method PublishRoute(known: Option<EdgeRoute>, policy: Option<CompileInput>, configured: bool)
    returns (r: AdapterResult<CompiledEdge>)
    ensures r.Ok? <==> known.Some? && CheckRoute(known.value).RouteOk? && configured
    ensures r.Ok? ==> var route := known.value;
                      IsHost(route.host) && IsPath(route.pathPrefix) && IsPrivateOrigin(route.origin)
    ensures r.Err? && r.status == NotConfigured <==> known.Some? && CheckRoute(known.value).RouteOk? && !configured
    ensures r.Ok? ==> r.value == Compiled(if policy.Some? then Republished(policy.value, known.value)
                                          else Bare(known.value))
  {
    if known.None? { return Err(Failed, "No route is known."); }
    var route := known.value;
    var validated := CheckRoute(route);
    if validated.RouteRefused? { return Err(Failed, validated.reason); }
    if !configured { return Err(NotConfigured, "The security edge is not configured for the organization."); }
    var compiled;
    if policy.Some? {
      var all := [policy.value.route] + policy.value.routes;
      var others := [];
      for i := 0 to |all|
        invariant others == Without(all[..i], route.host)
      {
        assert all[..i + 1][..i] == all[..i];
        if all[i].host != route.host { others := others + [all[i]]; }
      }
      assert all[..|all|] == all;
      compiled := CompileEdge(policy.value.(route := route, routes := others));
    } else {
      compiled := CompileEdge(Bare(route));
    }
    return Ok(Succeeded, compiled);
  }
}
