/**
 The shape of a compiled artifact: every chain is closed, every id is its own, the
 ladder names what it says it names, and what did not validate left no trace.
 */
module EdgeShape {
  import opened Contracts
  import opened EdgeInput
  import opened SecLang
  import opened EdgeCompiler

  // ---------------------------------------------------------------- shape

  /** Where a stage stands on the ladder. */
  function Rank(stage: Stage): nat {
    match stage
    case AllowVerifiedBot => 0
    case AllowInternal => 1
    case AllowTrustedIp => 2
    case BlockDenyList => 3
    case RateLimited => 4
    case Challenged => 5
    case Waf => 6
    case Protect => 7
  }

  /** The step's own chain stands in the list, whole, at `i`, under the step's id. */
  predicate NamedAt(step: LadderStep, ds: seq<Directive>, i: nat) {
    && |step.directives| > 0 && i + |step.directives| <= |ds|
    && ds[i..i + |step.directives|] == step.directives
    && IdOf(ds[i]) == Some(step.id)
    && (i + |step.directives| < |ds| ==> !IsMember(ds[i + |step.directives|]))
  }

  predicate Named(step: LadderStep, ds: seq<Directive>) {
    exists i :: 0 <= i < |ds| && NamedAt(step, ds, i)
  }

  predicate IdsBelow(ds: seq<Directive>, n: nat) {
    forall i :: 0 <= i < |ds| && IdOf(ds[i]).Some? ==> IdOf(ds[i]).value < n
  }

  /** Ids rise along the ladder and stages follow its order. */
  predicate LadderRises(ladder: seq<LadderStep>) {
    forall k, l :: 0 <= k < l < |ladder| ==>
      ladder[k].id < ladder[l].id && Rank(ladder[k].stage) <= Rank(ladder[l].stage)
  }

  predicate WellShaped(d: Draft, rank: nat) {
    && Balanced(d.directives) && IdsRise(d.directives) && IdsBelow(d.directives, d.nextId)
    && LadderRises(d.ladder)
    && forall k :: 0 <= k < |d.ladder| ==>
         Named(d.ladder[k], d.directives) && d.ladder[k].id < d.nextId && Rank(d.ladder[k].stage) <= rank
  }

  /** One chain or one action, under this id. */
  predicate Block(emitted: seq<Directive>, id: nat) {
    && |emitted| > 0 && Balanced(emitted) && IdOf(emitted[0]) == Some(id)
    && forall i :: 0 < i < |emitted| ==> IdOf(emitted[i]).None?
  }

  lemma AppendedBalanced(ds: seq<Directive>, emitted: seq<Directive>, id: nat)
    requires Balanced(ds) && Block(emitted, id)
    ensures Balanced(ds + emitted)
  {
    var all := ds + emitted;
    forall i | 0 < i < |all| ensures IsMember(all[i]) <==> Chains(all[i - 1]) {
      if i > |ds| { assert all[i] == emitted[i - |ds|] && all[i - 1] == emitted[i - |ds| - 1]; }
    }
  }

  lemma AppendedNamed(step: LadderStep, ds: seq<Directive>, emitted: seq<Directive>, id: nat)
    requires Named(step, ds) && Block(emitted, id)
    ensures Named(step, ds + emitted)
  {
    var i :| 0 <= i < |ds| && NamedAt(step, ds, i);
    assert (ds + emitted)[i..i + |step.directives|] == ds[i..i + |step.directives|];
    assert NamedAt(step, ds + emitted, i);
  }

  lemma PushKeeps(d: Draft, rank: nat, stage: Stage, action: Enforcement, emitted: seq<Directive>)
    requires WellShaped(d, rank) && rank <= Rank(stage) && Block(emitted, d.nextId)
    ensures WellShaped(Push(d, stage, action, emitted), Rank(stage))
  {
    var after := Push(d, stage, action, emitted);
    AppendedBalanced(d.directives, emitted, d.nextId);
    forall k | 0 <= k < |after.ladder| ensures Named(after.ladder[k], after.directives) {
      if k < |d.ladder| {
        AppendedNamed(d.ladder[k], d.directives, emitted, d.nextId);
      } else {
        assert NamedAt(after.ladder[k], after.directives, |d.directives|);
      }
    }
  }

  lemma {:induction false} BotsKeep(d: Draft, bots: seq<VerifiedBot>)
    requires WellShaped(d, 0)
    ensures WellShaped(AddBots(d, bots), 0)
  {
    if |bots| > 0 {
      BotsKeep(d, bots[..|bots| - 1]);
      var before := AddBots(d, bots[..|bots| - 1]);
      PushKeeps(before, 0, AllowVerifiedBot, Allow, EmitBot(before.nextId, bots[|bots| - 1]));
    }
  }

  lemma {:induction false} SourcesKeep(d: Draft, sources: seq<TrustedSource>)
    requires WellShaped(d, 2)
    ensures WellShaped(AddAllTrusted(d, sources), 2)
  {
    if |sources| > 0 {
      SourcesKeep(d, sources[..|sources| - 1]);
      var before := AddAllTrusted(d, sources[..|sources| - 1]);
      PushKeeps(before, 2, AllowTrustedIp, Allow, EmitTrusted(before.nextId, sources[|sources| - 1]));
    }
  }

  lemma {:induction false} DeniesKeep(d: Draft, rules: seq<DenyRule>)
    requires WellShaped(d, 3)
    ensures WellShaped(AddDenies(d, rules), 3)
  {
    if |rules| > 0 {
      DeniesKeep(d, rules[..|rules| - 1]);
      var before := AddDenies(d, rules[..|rules| - 1]);
      PushKeeps(before, 3, BlockDenyList, Enforcement.Block, EmitDeny(before.nextId, rules[|rules| - 1]));
    }
  }

  lemma {:induction false} RatesKeep(d: Draft, rules: seq<RateLimitRule>)
    requires WellShaped(d, 4)
    ensures WellShaped(AddRates(d, rules), 4)
  {
    if |rules| > 0 {
      RatesKeep(d, rules[..|rules| - 1]);
      var before := AddRates(d, rules[..|rules| - 1]);
      var last := rules[|rules| - 1];
      if ValidRate(last) { PushKeeps(before, 4, RateLimited, Log, EmitRate(before.nextId, last)); }
    }
  }

  /** A directive that no step names keeps the shape too. */
  lemma UnnamedKeeps(d: Draft, rank: nat, emitted: seq<Directive>)
    requires WellShaped(d, rank) && Block(emitted, d.nextId)
    ensures WellShaped(d.(directives := d.directives + emitted, nextId := d.nextId + 1), rank)
  {
    AppendedBalanced(d.directives, emitted, d.nextId);
    forall k | 0 <= k < |d.ladder| ensures Named(d.ladder[k], d.directives + emitted) {
      AppendedNamed(d.ladder[k], d.directives, emitted, d.nextId);
    }
  }

  lemma WafBlocks(id: nat, policy: EdgePolicy)
    ensures Block(EmitThreshold(id, policy), id) && Block(EmitWaf(id, policy), id)
  {
  }

  lemma ThresholdKeeps(d: Draft, policy: EdgePolicy)
    requires WellShaped(d, 6)
    ensures WellShaped(AddThreshold(d, policy), 6)
  {
    WafBlocks(d.nextId, policy);
    UnnamedKeeps(d, 6, EmitThreshold(d.nextId, policy));
  }

  lemma WafKeeps(d: Draft, policy: Option<EdgePolicy>)
    requires WellShaped(d, 6)
    ensures WellShaped(AddWaf(d, policy), 6)
  {
    if policy.Some? {
      ThresholdKeeps(d, policy.value);
      WafBlocks(d.nextId + 1, policy.value);
      PushKeeps(AddThreshold(d, policy.value), 6, Waf, policy.value.action, EmitWaf(d.nextId + 1, policy.value));
    }
  }

  lemma AllStepsShaped(input: CompileInput)
    ensures WellShaped(AllSteps(input), 6)
  {
    BotsKeep(Header(input), BotsOf(input));
    var bots := AddBots(Header(input), BotsOf(input));
    PushKeeps(bots, 0, AllowInternal, Allow, EmitInternal(bots.nextId));
    SourcesKeep(AddInternal(bots), input.trustedSources);
    DeniesKeep(AllowSteps(input), input.denyList);
    RatesKeep(DenySteps(input), input.rateLimits);
    var rated := AddRates(DenySteps(input), input.rateLimits);
    if input.attackMode { PushKeeps(rated, 4, Challenged, Challenge, EmitChallenge(rated.nextId)); }
    WafKeeps(LimitSteps(input), input.policy);
  }

  /** What a finished artifact promises of its list and its ladder. */
  predicate Reviewable(ds: seq<Directive>, ladder: seq<LadderStep>) {
    && Balanced(ds) && IdsRise(ds) && LadderRises(ladder)
    && (forall k :: 0 <= k < |ladder| && ladder[k].stage != Protect ==> Named(ladder[k], ds))
    && (forall k, i :: 0 <= k < |ladder| && ladder[k].stage == Protect && 0 <= i < |ds| ==>
          IdOf(ds[i]) != Some(ladder[k].id))
  }

  lemma ShapedIsReviewable(d: Draft)
    requires WellShaped(d, 6)
    ensures Reviewable(d.directives, d.ladder) && Reviewable(d.directives, d.ladder + [ProtectStep(d.nextId)])
  {
    var more := d.ladder + [ProtectStep(d.nextId)];
    assert forall k :: 0 <= k < |d.ladder| ==> more[k] == d.ladder[k] && Rank(more[k].stage) <= 6;
  }

  /**
   Every compiled list is a valid ruleset: a directive is a chain member exactly
   when the one before it chains, no chain is left open, and ids are unique and
   rise. Every step but `protect` stands in the list as one whole chain or action,
   and the only one under its id. `protect` comes last, under an id of its own.
   */
  lemma CompiledIsReviewable(input: CompileInput)
    ensures Reviewable(Compiled(input).directives, Compiled(input).ladder)
  {
    AllStepsShaped(input);
    var draft := AllSteps(input);
    ShapedIsReviewable(draft);
    assert draft.ladder + [] == draft.ladder;
  }

  lemma NamedOnce(step: LadderStep, ds: seq<Directive>, i: nat, j: nat)
    requires IdsRise(ds) && NamedAt(step, ds, i) && NamedAt(step, ds, j)
    ensures i == j
  {
    assert IdOf(ds[i]) == IdOf(ds[j]);
  }

  // ---------------------------------------------------------------- invalid entries are inert

  function Only<T>(items: seq<T>, valid: T -> bool): seq<T> {
    if |items| == 0 then []
    else
      var before := Only(items[..|items| - 1], valid);
      if valid(items[|items| - 1]) then before + [items[|items| - 1]] else before
  }

  lemma {:induction false} InertBots(d: Draft, bots: seq<VerifiedBot>)
    ensures AddBots(d, Only(bots, ValidBot)) == AddBots(d, bots)
  {
    if |bots| > 0 {
      var init, last := bots[..|bots| - 1], bots[|bots| - 1];
      InertBots(d, init);
      if ValidBot(last) { assert (Only(init, ValidBot) + [last])[..|Only(init, ValidBot)|] == Only(init, ValidBot); }
    }
  }

  lemma {:induction false} InertSources(d: Draft, sources: seq<TrustedSource>)
    ensures AddAllTrusted(d, Only(sources, ValidSource)) == AddAllTrusted(d, sources)
    ensures SkipAddresses(Only(sources, ValidSource)) == SkipAddresses(sources)
  {
    if |sources| > 0 {
      var init, last := sources[..|sources| - 1], sources[|sources| - 1];
      InertSources(d, init);
      if ValidSource(last) {
        assert (Only(init, ValidSource) + [last])[..|Only(init, ValidSource)|] == Only(init, ValidSource);
      }
    }
  }

  lemma {:induction false} InertDenies(d: Draft, rules: seq<DenyRule>)
    ensures AddDenies(d, Only(rules, ValidDeny)) == AddDenies(d, rules)
  {
    if |rules| > 0 {
      var init, last := rules[..|rules| - 1], rules[|rules| - 1];
      InertDenies(d, init);
      if ValidDeny(last) {
        assert (Only(init, ValidDeny) + [last])[..|Only(init, ValidDeny)|] == Only(init, ValidDeny);
      }
    }
  }

  lemma {:induction false} InertRates(d: Draft, rules: seq<RateLimitRule>)
    ensures AddRates(d, Only(rules, ValidRate)) == AddRates(d, rules)
  {
    if |rules| > 0 {
      var init, last := rules[..|rules| - 1], rules[|rules| - 1];
      InertRates(d, init);
      if ValidRate(last) {
        assert (Only(init, ValidRate) + [last])[..|Only(init, ValidRate)|] == Only(init, ValidRate);
      }
    }
  }

  /** The curated bots all validate, so the operator's own list can be filtered by itself. */
  lemma {:induction false} InertOwnBots(d: Draft, curated: seq<VerifiedBot>, own: seq<VerifiedBot>)
    ensures AddBots(d, curated + Only(own, ValidBot)) == AddBots(d, curated + own)
  {
    if |own| == 0 {
      assert Only(own, ValidBot) == own;
    } else {
      var init, last := own[..|own| - 1], own[|own| - 1];
      InertOwnBots(d, curated, init);
      assert (curated + own)[..|curated + own| - 1] == curated + init;
      if ValidBot(last) {
        var kept := curated + Only(own, ValidBot);
        assert kept[..|kept| - 1] == curated + Only(init, ValidBot) && kept[|kept| - 1] == last;
      } else {
        assert Only(own, ValidBot) == Only(init, ValidBot);
      }
    }
  }

  function Filtered(input: CompileInput): CompileInput {
    input.(botAllowList := Only(input.botAllowList, ValidBot),
           trustedSources := Only(input.trustedSources, ValidSource),
           denyList := Only(input.denyList, ValidDeny),
           rateLimits := Only(input.rateLimits, ValidRate))
  }

  lemma {:induction false} SameFragments(input: CompileInput, routes: seq<EdgeRoute>)
    ensures Fragments(Filtered(input), routes) == Fragments(input, routes)
  {
    if |routes| > 0 {
      SameFragments(input, routes[..|routes| - 1]);
      InertSources(Header(input), input.trustedSources);
    }
  }

  /** Compiling any input gives exactly the artifact of the input with everything invalid taken out, ids included. */
  lemma InvalidEntriesAreInert(input: CompileInput)
    ensures Compiled(Filtered(input)) == Compiled(input)
  {
    InertOwnBots(Header(input), VERIFIED_BOTS, input.botAllowList);
    InertSources(AddInternal(AddBots(Header(input), BotsOf(input))), input.trustedSources);
    InertDenies(AllowSteps(input), input.denyList);
    InertRates(DenySteps(input), input.rateLimits);
    SameFragments(input, RoutesOf(input));
  }

  // ---------------------------------------------------------------- every valid limit is enforced

  /** The descriptor the edge enforces for a limit is its own, with its own numbers. */
  predicate Enforces(limit: CompiledRateLimit, rule: RateLimitRule) {
    && limit.limit == rule.limit && limit.windowSeconds == rule.windowSeconds
    && (rule.key == ByHeader && rule.headerName.Some? ==> limit.descriptor == "header:" + rule.headerName.value)
    && (rule.key == ByIp ==> limit.descriptor == "remote_address")
    && (rule.key == Globally ==> limit.descriptor == "route_global")
  }

  lemma {:induction false} RatesEnforced(d: Draft, rules: seq<RateLimitRule>)
    requires d.rateLimits == []
    ensures var limits, kept := AddRates(d, rules).rateLimits, Only(rules, ValidRate);
            |limits| == |kept| && forall i :: 0 <= i < |kept| ==> Enforces(limits[i], kept[i])
  {
    if |rules| > 0 { RatesEnforced(d, rules[..|rules| - 1]); }
  }

  lemma {:induction false} NoLimitsYet(input: CompileInput, bots: seq<VerifiedBot>, sources: seq<TrustedSource>,
                                       rules: seq<DenyRule>)
    ensures AddDenies(AddAllTrusted(AddInternal(AddBots(Header(input), bots)), sources), rules).rateLimits == []
    decreases |bots| + |sources| + |rules|
  {
    if |rules| > 0 {
      NoLimitsYet(input, bots, sources, rules[..|rules| - 1]);
    } else if |sources| > 0 {
      NoLimitsYet(input, bots, sources[..|sources| - 1], rules);
    } else if |bots| > 0 {
      NoLimitsYet(input, bots[..|bots| - 1], sources, rules);
    }
  }

  /** The limits the edge enforces are the valid ones, in order, each with its own key and numbers. */
  lemma EveryValidLimitIsEnforced(input: CompileInput)
    ensures var limits, kept := Compiled(input).rateLimits, Only(input.rateLimits, ValidRate);
            |limits| == |kept| && forall i :: 0 <= i < |kept| ==> Enforces(limits[i], kept[i])
  {
    NoLimitsYet(input, BotsOf(input), input.trustedSources, input.denyList);
    RatesEnforced(DenySteps(input), input.rateLimits);
  }

  // ---------------------------------------------------------------- the two layers agree on whom to trust

  /** The addresses a list of directives trusts, in order. */
  function TrustedIn(ds: seq<Directive>): seq<string> {
    if |ds| == 0 then []
    else
      var last := ds[|ds| - 1];
      var before := TrustedIn(ds[..|ds| - 1]);
      if last.Rule? && last.op.IpMatch? && last.setvar == Some(SetVar(TrustedMarker, "1"))
      then before + [last.op.addresses] else before
  }

  lemma {:induction false} TrustedInAppends(ds: seq<Directive>, more: seq<Directive>)
    ensures TrustedIn(ds + more) == TrustedIn(ds) + TrustedIn(more)
  {
    if |more| == 0 {
      assert ds + more == ds;
    } else {
      assert (ds + more)[..|ds + more| - 1] == ds + more[..|more| - 1];
      TrustedInAppends(ds, more[..|more| - 1]);
    }
  }

  predicate MarksNoTrust(ds: seq<Directive>) {
    forall i :: 0 <= i < |ds| && ds[i].Rule? && ds[i].setvar.Some? ==> ds[i].setvar.value.v != TrustedMarker
  }

  lemma {:induction false} NoTrustIn(ds: seq<Directive>)
    requires MarksNoTrust(ds)
    ensures TrustedIn(ds) == []
  {
    if |ds| > 0 { NoTrustIn(ds[..|ds| - 1]); }
  }

  lemma NoTrustAdded(ds: seq<Directive>, more: seq<Directive>)
    requires MarksNoTrust(more)
    ensures TrustedIn(ds + more) == TrustedIn(ds)
  {
    TrustedInAppends(ds, more);
    NoTrustIn(more);
  }

  lemma {:induction false} BotsTrustNobody(d: Draft, bots: seq<VerifiedBot>)
    ensures TrustedIn(AddBots(d, bots).directives) == TrustedIn(d.directives)
  {
    if |bots| > 0 {
      BotsTrustNobody(d, bots[..|bots| - 1]);
      var before := AddBots(d, bots[..|bots| - 1]);
      NoTrustAdded(before.directives, EmitBot(before.nextId, bots[|bots| - 1]));
    }
  }

  lemma {:induction false} SourcesAreTrusted(d: Draft, sources: seq<TrustedSource>)
    ensures TrustedIn(AddAllTrusted(d, sources).directives) == TrustedIn(d.directives) + SkipAddresses(sources)
  {
    if |sources| > 0 {
      SourcesAreTrusted(d, sources[..|sources| - 1]);
      var before := AddAllTrusted(d, sources[..|sources| - 1]);
      TrustedInAppends(before.directives, EmitTrusted(before.nextId, sources[|sources| - 1]));
    }
  }

  lemma {:induction false} DeniesTrustNobody(d: Draft, rules: seq<DenyRule>)
    ensures TrustedIn(AddDenies(d, rules).directives) == TrustedIn(d.directives)
  {
    if |rules| > 0 {
      DeniesTrustNobody(d, rules[..|rules| - 1]);
      var before := AddDenies(d, rules[..|rules| - 1]);
      NoTrustAdded(before.directives, EmitDeny(before.nextId, rules[|rules| - 1]));
    }
  }

  lemma {:induction false} RatesTrustNobody(d: Draft, rules: seq<RateLimitRule>)
    ensures TrustedIn(AddRates(d, rules).directives) == TrustedIn(d.directives)
  {
    if |rules| > 0 {
      RatesTrustNobody(d, rules[..|rules| - 1]);
      var before := AddRates(d, rules[..|rules| - 1]);
      var last := rules[|rules| - 1];
      if ValidRate(last) { NoTrustAdded(before.directives, EmitRate(before.nextId, last)); }
    }
  }

  lemma WafTrustsNobody(d: Draft, policy: Option<EdgePolicy>)
    ensures TrustedIn(AddWaf(d, policy).directives) == TrustedIn(d.directives)
  {
    if policy.Some? {
      NoTrustAdded(d.directives, EmitThreshold(d.nextId, policy.value));
      NoTrustAdded(d.directives + EmitThreshold(d.nextId, policy.value), EmitWaf(d.nextId + 1, policy.value));
    }
  }

  lemma {:induction false} FragmentsSkip(input: CompileInput, routes: seq<EdgeRoute>, k: nat)
    requires k < |Fragments(input, routes)|
    ensures Fragments(input, routes)[k].skipChallengeAddresses == SkipAddresses(input.trustedSources)
  {
    if k < |Fragments(input, routes[..|routes| - 1])| { FragmentsSkip(input, routes[..|routes| - 1], k); }
  }

  lemma AllowStepsTrust(input: CompileInput)
    ensures TrustedIn(AllowSteps(input).directives) == SkipAddresses(input.trustedSources)
  {
    NoTrustIn(Header(input).directives);
    BotsTrustNobody(Header(input), BotsOf(input));
    var bots := AddBots(Header(input), BotsOf(input));
    NoTrustAdded(bots.directives, EmitInternal(bots.nextId));
    SourcesAreTrusted(AddInternal(bots), input.trustedSources);
  }

  lemma LaterStepsTrustNobody(input: CompileInput)
    ensures TrustedIn(AllSteps(input).directives) == TrustedIn(AllowSteps(input).directives)
  {
    DeniesTrustNobody(AllowSteps(input), input.denyList);
    RatesTrustNobody(DenySteps(input), input.rateLimits);
    var rated := AddRates(DenySteps(input), input.rateLimits);
    NoTrustAdded(rated.directives, EmitChallenge(rated.nextId));
    WafTrustsNobody(LimitSteps(input), input.policy);
  }

  /**
   The addresses the edge does not challenge are exactly those the rules trust, in the
   same order, on every fragment.
   */
  lemma LayersAgreeOnTrust(input: CompileInput, k: nat)
    requires k < |Compiled(input).envoyRoutes|
    ensures Compiled(input).envoyRoutes[k].skipChallengeAddresses == TrustedIn(Compiled(input).directives)
  {
    AllowStepsTrust(input);
    LaterStepsTrustNobody(input);
    FragmentsSkip(input, RoutesOf(input), k);
  }
}
