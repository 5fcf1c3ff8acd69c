/**
 What the security edge is asked to enforce, and the grammars that decide which
 of it may become engine configuration.
 */
module EdgeInput {
  import opened Contracts

  // ---------------------------------------------------------------- characters

  predicate IsDigit(c: char) { '0' <= c <= '9' }
  predicate IsLower(c: char) { 'a' <= c <= 'z' }
  predicate IsUpper(c: char) { 'A' <= c <= 'Z' }
  predicate IsAlnum(c: char) { IsDigit(c) || IsLower(c) || IsUpper(c) }
  predicate IsHostChar(c: char) { IsDigit(c) || IsLower(c) || c == '-' }
  predicate IsUaChar(c: char) {
    IsAlnum(c) || c == ' ' || c == '.' || c == '_' || c == '/' || c == '+' || c == '(' || c == ')' || c == '-'
  }
  predicate IsPathChar(c: char) { IsAlnum(c) || c == '-' || c == '.' || c == '_' || c == '~' || c == '/' }
  predicate IsHeaderChar(c: char) { IsAlnum(c) || c == '-' }
  predicate IsUserChar(c: char) { IsAlnum(c) || c == '.' || c == '_' || c == '@' || c == '-' }
  predicate IsHexDigit(c: char) { IsDigit(c) || 'a' <= c <= 'f' }

  /** The pieces of a string between occurrences of `sep`; there is always at least one. */
  function Split(s: string, sep: char): (parts: seq<string>)
    ensures |parts| >= 1
  {
    if |s| == 0 then [""]
    else
      var before := Split(s[..|s| - 1], sep);
      var last := |before| - 1;
      if s[|s| - 1] == sep then before + [""] else before[last := before[last] + [s[|s| - 1]]]
  }

  // ---------------------------------------------------------------- grammars

  predicate Digits(s: string, least: nat, most: nat) {
    least <= |s| <= most && (forall i :: 0 <= i < |s| ==> IsDigit(s[i]))
  }

  predicate IsIpv4(s: string) {
    var parts := Split(s, '.');
    |parts| == 4 && forall i :: 0 <= i < 4 ==> Digits(parts[i], 1, 3)
  }

  predicate IsCidr(s: string) {
    var parts := Split(s, '/');
    |parts| == 2 && IsIpv4(parts[0]) && Digits(parts[1], 1, 2)
  }

  predicate IsAsn(s: string) {
    |s| >= 2 && s[..2] == "AS" && Digits(s[2..], 1, 10)
  }

  predicate IsUaValue(s: string) {
    1 <= |s| <= 120 && (forall i :: 0 <= i < |s| ==> IsUaChar(s[i]))
  }

  predicate IsLabel(s: string) {
    1 <= |s| <= 63 && (forall i :: 0 <= i < |s| ==> IsHostChar(s[i])) && s[0] != '-' && s[|s| - 1] != '-'
  }

  predicate IsHost(s: string) {
    var labels := Split(s, '.');
    |labels| >= 2 && forall i :: 0 <= i < |labels| ==> IsLabel(labels[i])
  }

  predicate IsBotName(s: string) {
    1 <= |s| <= 40 && (forall i :: 0 <= i < |s| ==> IsHostChar(s[i])) && s[0] != '-'
  }

  predicate IsHeaderName(s: string) {
    1 <= |s| <= 61 && (forall i :: 0 <= i < |s| ==> IsHeaderChar(s[i])) && s[0] != '-'
  }

  predicate IsBasicUser(s: string) {
    1 <= |s| <= 64 && (forall i :: 0 <= i < |s| ==> IsUserChar(s[i]))
  }

  predicate IsSha256(s: string) {
    |s| == 64 && (forall i :: 0 <= i < |s| ==> IsHexDigit(s[i]))
  }

  predicate IsPath(s: string) {
    1 <= |s| <= 201 && s[0] == '/' && (forall i :: 0 <= i < |s| ==> IsPathChar(s[i]))
  }

  /** An address inside a private range: the only kind of origin the edge publishes. */
  predicate IsPrivateOrigin(s: string) {
    || "10." <= s || "127." <= s || "192.168." <= s || "169.254." <= s
    || (|s| >= 7 && s[..4] == "172." && s[6] == '.'
        && ((s[4] == '1' && '6' <= s[5] <= '9') || (s[4] == '2' && IsDigit(s[5]))
            || (s[4] == '3' && '0' <= s[5] <= '1')))
    || IsUniqueLocal(s)
    || (|s| >= 1 && s[0] == '[' && IsUniqueLocal(s[1..]))
  }

  predicate IsUniqueLocal(s: string) {
    |s| >= 5 && s[0] == 'f' && (s[1] == 'c' || s[1] == 'd') && IsHexDigit(s[2]) && IsHexDigit(s[3]) && s[4] == ':'
  }

  // ---------------------------------------------------------------- entries

  datatype VerifiedBot = VerifiedBot(name: string, userAgent: string, confirmSuffix: string)

  predicate ValidBot(bot: VerifiedBot) {
    IsBotName(bot.name) && IsUaValue(bot.userAgent) && IsHost(bot.confirmSuffix)
  }

  /** The curated directory every artifact starts from. */
  const VERIFIED_BOTS: seq<VerifiedBot> := [
    VerifiedBot("googlebot", "Googlebot", "googlebot.com"),
    VerifiedBot("google-other", "Google", "google.com"),
    VerifiedBot("bingbot", "bingbot", "search.msn.com"),
    VerifiedBot("duckduckbot", "DuckDuckBot", "duckduckgo.com"),
    VerifiedBot("yandexbot", "YandexBot", "yandex.ru"),
    VerifiedBot("baiduspider", "Baiduspider", "baidu.com"),
    VerifiedBot("applebot", "Applebot", "applebot.apple.com"),
    VerifiedBot("uptimerobot", "UptimeRobot", "uptimerobot.com"),
    VerifiedBot("pingdom", "Pingdom", "pingdom.com")]

  datatype DenyKind = DenyIp | DenyCidr | DenyAsn | DenyUserAgent

  datatype DenyRule = DenyRule(kind: DenyKind, value: string)

  predicate ValidDeny(rule: DenyRule) {
    match rule.kind
    case DenyIp => IsIpv4(rule.value)
    case DenyCidr => IsCidr(rule.value)
    case DenyAsn => IsAsn(rule.value)
    case DenyUserAgent => IsUaValue(rule.value)
  }

  datatype SourceKind = SourceIp | SourceCidr

  datatype TrustedSource = TrustedSource(kind: SourceKind, value: string)

  predicate ValidSource(source: TrustedSource) {
    if source.kind == SourceIp then IsIpv4(source.value) else IsCidr(source.value)
  }

  datatype RateKey = ByIp | ByHeader | Globally

  /** A limit as the source holds it: a number that need not be whole. */
  datatype RateLimitRule = RateLimitRule(id: string, key: RateKey, headerName: Option<string>, limit: real,
                                         windowSeconds: real)

  predicate WholeWithin(x: real, most: int) {
    x.Floor as real == x && 1 <= x.Floor <= most
  }

  predicate ValidRate(rule: RateLimitRule) {
    && WholeWithin(rule.limit, 1_000_000)
    && WholeWithin(rule.windowSeconds, 86_400)
    && if rule.key == ByHeader then rule.headerName.Some? && IsHeaderName(rule.headerName.value)
       else rule.headerName.None?
  }

  // ---------------------------------------------------------------- routes

  datatype ProtectionMode = Unprotected | Password | IpAllowList

  datatype Protection = Protection(
    mode: ProtectionMode,
    basicUser: Option<string>,
    basicPasswordSha256: Option<string>,
    allowedCidrs: Option<seq<string>>)

  const OPEN: Protection := Protection(Unprotected, None, None, None)

  function Cidrs(p: Protection): seq<string> {
    if p.allowedCidrs.Some? then p.allowedCidrs.value else []
  }

  predicate ValidProtection(p: Protection) {
    match p.mode
    case Unprotected => !Present(p.basicUser) && !Present(p.basicPasswordSha256) && Cidrs(p) == []
    case Password =>
      && Present(p.basicUser) && IsBasicUser(p.basicUser.value)
      && Present(p.basicPasswordSha256) && IsSha256(p.basicPasswordSha256.value)
      && Cidrs(p) == []
    case IpAllowList =>
      && Cidrs(p) != [] && (forall i :: 0 <= i < |Cidrs(p)| ==> IsCidr(Cidrs(p)[i]))
      && !Present(p.basicUser) && !Present(p.basicPasswordSha256)
  }

  /** A posture that does not validate is dropped to none. */
  function ProtectionOf(p: Option<Protection>): (r: Protection)
    ensures ValidProtection(r)
    ensures p.Some? && ValidProtection(p.value) ==> r == p.value
    ensures r.mode != Unprotected ==> p == Some(r)
  {
    if p.Some? && ValidProtection(p.value) then p.value else OPEN
  }

  datatype EdgeRoute = EdgeRoute(host: string, origin: string, pathPrefix: string, protection: Option<Protection>)

  datatype RouteCheck = RouteOk | RouteRefused(reason: string)

  function CheckRoute(route: EdgeRoute): RouteCheck {
    if !IsHost(route.host) then RouteRefused("Host is not a valid DNS name.")
    else if !IsPath(route.pathPrefix) then RouteRefused("Path prefix is not valid.")
    else if !IsPrivateOrigin(route.origin) then
      RouteRefused("Origin must be a private address; a public origin would be reachable directly.")
    else RouteOk
  }

  // ---------------------------------------------------------------- policy

  datatype RiskLevel = Low | Medium | High | Critical

  datatype Enforcement = Allow | Log | Challenge | Block | Quarantine

  datatype EdgePolicy = EdgePolicy(riskLevel: RiskLevel, action: Enforcement, version: nat)

  datatype CompileInput = CompileInput(
    route: EdgeRoute,
    routes: seq<EdgeRoute>,
    policy: Option<EdgePolicy>,
    attackMode: bool,
    botAllowList: seq<VerifiedBot>,
    denyList: seq<DenyRule>,
    trustedSources: seq<TrustedSource>,
    rateLimits: seq<RateLimitRule>)

  /** Every bot the artifact may let through: the curated directory, then the operator's own. */
  function BotsOf(input: CompileInput): seq<VerifiedBot> {
    VERIFIED_BOTS + input.botAllowList
  }

  // ---------------------------------------------------------------- nothing validated is syntax

  /** A character that would end a quoted operand, split an action list or expand a macro. */
  predicate IsSyntax(c: char) {
    || c == '"' || c == '\'' || c == '\\' || c == ',' || c == ';' || c == '%' || c == '{' || c == '}'
    || c == '\n' || c == '\r' || c == '\t'
  }

  predicate Inert(s: string) {
    forall i :: 0 <= i < |s| ==> !IsSyntax(s[i])
  }

  predicate InSomePiece(c: char, parts: seq<string>) {
    exists k :: 0 <= k < |parts| && c in parts[k]
  }

  /** Every character of a string is the separator or comes from one of its pieces. */
  lemma {:induction false} SplitCovers(s: string, sep: char, i: nat)
    requires i < |s|
    ensures s[i] == sep || InSomePiece(s[i], Split(s, sep))
  {
    var n := |s| - 1;
    var before := Split(s[..n], sep);
    var parts := Split(s, sep);
    var last := |before| - 1;
    if i == n {
      if s[n] != sep {
        assert parts[last] == before[last] + [s[n]];
        assert parts[last][|before[last]|] == s[i];
        assert s[i] in parts[last];
      }
    } else {
      SplitCovers(s[..n], sep, i);
      if s[i] != sep {
        var k :| 0 <= k < |before| && s[i] in before[k];
        assert s[i] in parts[k];
      }
    }
  }

  lemma PiecesInert(s: string, sep: char)
    requires !IsSyntax(sep) && forall k :: 0 <= k < |Split(s, sep)| ==> Inert(Split(s, sep)[k])
    ensures Inert(s)
  {
    forall i | 0 <= i < |s| ensures !IsSyntax(s[i]) {
      SplitCovers(s, sep, i);
    }
  }

  lemma AddressInert(s: string)
    requires IsIpv4(s) || IsCidr(s)
    ensures Inert(s)
  {
    if IsCidr(s) {
      var parts := Split(s, '/');
      PiecesInert(parts[0], '.');
      assert forall k :: 0 <= k < |parts| ==> Inert(parts[k]);
      PiecesInert(s, '/');
    } else {
      PiecesInert(s, '.');
    }
  }

  // Whatever a customer or an operator supplied, a value that passed its grammar holds no directive syntax.

  lemma BotIsInert(bot: VerifiedBot)
    requires ValidBot(bot)
    ensures Inert(bot.name) && Inert(bot.userAgent) && Inert(bot.confirmSuffix)
  {
    PiecesInert(bot.confirmSuffix, '.');
  }

  lemma DenyIsInert(rule: DenyRule)
    requires ValidDeny(rule)
    ensures Inert(rule.value)
  {
    match rule.kind
    case DenyAsn =>
      forall i | 0 <= i < |rule.value| ensures !IsSyntax(rule.value[i]) {
        assert rule.value[i] == if i < 2 then rule.value[..2][i] else rule.value[2..][i - 2];
      }
    case DenyUserAgent =>
    case _ => AddressInert(rule.value);
  }

  lemma SourceIsInert(source: TrustedSource)
    requires ValidSource(source)
    ensures Inert(source.value)
  {
    AddressInert(source.value);
  }
}
