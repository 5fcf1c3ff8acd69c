/**
 The address of every page, written out, and the pages every address leads to: what is
 parsed names the path it was parsed from, `data` for `database` being the one alias.
 */
module RoutePages {
  import opened Contracts
  import opened UriText
  import opened UrlPaths
  import opened WebRoutes
  import opened RouteRoundTrips
  import opened RouteTheorems

  // ---------------------------------------------------------------- addresses

  /** A page of an organization: its encoded id, and what follows it. */
  function OrgPath(o: Text, rest: string): Text {
    Ascii("/orgs/") + o + Ascii(rest)
  }

  /** A page of a project: the two encoded ids, and what follows them. */
  function ProjectPath(o: Text, p: Text, rest: string): Text {
    Ascii("/orgs/") + o + Ascii("/projects/") + p + Ascii(rest)
  }

  /** The organization a route is in. */
  function OrgOf(r: Route): Text {
    match r
    case Landing => []
    case AuthCallback => []
    case Organizations => []
    case NotFound(_) => []
    case _ => r.organizationId
  }

  /** The project a route is in. */
  function ProjectOf(r: Route): Text {
    match r
    case Project(_, p) => p
    case Deployments(_, p) => p
    case Domains(_, p) => p
    case Database(_, p, _) => p
    case Security(_, Some(p)) => p
    case Setup(_, p) => p
    case Git(_, p) => p
    case Env(_, p) => p
    case ProjectLogs(_, p) => p
    case ProjectAnalytics(_, p) => p
    case ProjectSettings(_, p) => p
    case ProjectSection(_, p, _, _) => p
    case _ => []
  }

  function Under(word: string, sub: Option<string>): string {
    "/" + word + if sub.Some? then "/" + sub.value else ""
  }

  /** The word a page is known by, when it is known by one. */
  function WordOf(r: Route): string {
    match r
    case Projects(_) => "projects"
    case Audit(_) => "audit"
    case Observability(_) => "observability"
    case Billing(_) => "billing"
    case OrgDeployments(_) => "deployments"
    case Members(_) => "members"
    case Settings(_) => "settings"
    case Docs(_) => "docs"
    case Security(_, _) => "security"
    case Deployments(_, _) => "deployments"
    case Domains(_, _) => "domains"
    case Setup(_, _) => "setup"
    case Git(_, _) => "git"
    case Env(_, _) => "env"
    case ProjectLogs(_, _) => "logs"
    case ProjectAnalytics(_, _) => "analytics"
    case ProjectSettings(_, _) => "settings"
    case _ => ""
  }

  /** A page of an organization that is known by one word. */
  predicate IsOrganizationPage(r: Route) {
    r.Projects? || r.Audit? || r.Observability? || r.Billing? || r.OrgDeployments? || r.Members? || r.Settings?
    || r.Docs? || (r.Security? && r.shortcut.None?)
  }

  /** A page of a project that is known by one word. */
  predicate IsProjectPage(r: Route) {
    r.Deployments? || r.Domains? || r.Setup? || r.Git? || r.Env? || r.ProjectLogs? || r.ProjectAnalytics?
    || r.ProjectSettings? || (r.Security? && r.shortcut.Some?)
  }

  /** The address of a page, from its encoded ids. */
  function AddressOf(r: Route, o: Text, p: Text): Text {
    if IsOrganizationPage(r) then OrgPath(o, "/" + WordOf(r))
    else if IsProjectPage(r) then ProjectPath(o, p, "/" + WordOf(r))
    else
      match r
      case Landing => Ascii("/")
      case AuthCallback => Ascii("/auth/callback")
      case Organizations => Ascii("/orgs")
      case Organization(_) => OrgPath(o, "")
      case Project(_, _) => ProjectPath(o, p, "")
      case Database(_, _, section) => ProjectPath(o, p, Under("database", section))
      case ApiKeys(_) => OrgPath(o, "/settings/api-keys")
      case WorkspaceSection(_, section, sub) => OrgPath(o, Under(section, sub))
      case ProjectSection(_, _, section, sub) => ProjectPath(o, p, Under(section, sub))
      case _ => []
  }

  lemma AsciiJoins(a: string, b: string)
    ensures Ascii(a + b) == Ascii(a) + Ascii(b)
  {
  }

  lemma Regrouped<T>(x: seq<T>, y: seq<T>, z: seq<T>)
    ensures x + (y + z) == x + y + z
  {
  }

  lemma {:induction false} JoinedParts(a: seq<Text>, b: seq<Text>)
    ensures Joined(a + b) == Joined(a) + Joined(b)
  {
    if |a| == 0 {
      assert a + b == b;
    } else {
      JoinedParts(a[1..], b);
      var all, first := a + b, [SLASH] + a[0];
      assert all[0] == a[0] && all[1..] == a[1..] + b;
      Regrouped(first, Joined(a[1..]), Joined(b));
    }
  }

  lemma {:induction false} PrintedParts(a: seq<Piece>, b: seq<Piece>)
    requires PrintAll(a).Some? && PrintAll(b).Some?
    ensures PrintAll(a + b) == Some(PrintAll(a).value + PrintAll(b).value)
  {
    if |a| == 0 {
      assert a + b == b && PrintAll(a).value + PrintAll(b).value == PrintAll(b).value;
    } else {
      var all := a + b;
      assert all[0] == a[0] && all[1..] == a[1..] + b;
      assert Printed(a[0]).Some? && PrintAll(a[1..]).Some?;
      PrintedParts(a[1..], b);
      Regrouped([Printed(a[0]).value], PrintAll(a[1..]).value, PrintAll(b).value);
    }
  }

  lemma PrintsOne(piece: Piece)
    requires Printed(piece).Some?
    ensures PrintAll([piece]).Some? && Joined(PrintAll([piece]).value) == [SLASH] + Printed(piece).value
  {
    assert [piece][1..] == [] && PrintAll([]) == Some([]);
    assert [Printed(piece).value] + [] == [Printed(piece).value];
    assert [Printed(piece).value][1..] == [] && Joined([]) == [];
  }

  /** What these pieces print. */
  ghost predicate Prints(pieces: seq<Piece>, text: Text) {
    PrintAll(pieces).Some? && Joined(PrintAll(pieces).value) == text
  }

  lemma PrintsBoth(a: seq<Piece>, b: seq<Piece>, x: Text, y: Text)
    requires Prints(a, x) && Prints(b, y)
    ensures Prints(a + b, x + y)
  {
    PrintedParts(a, b);
    JoinedParts(PrintAll(a).value, PrintAll(b).value);
  }

  lemma PrintsWord(word: string)
    ensures Prints([Word(word)], Ascii("/" + word))
  {
    PrintsOne(Word(word));
    AsciiJoins("/", word);
  }

  lemma PrintsNothing()
    ensures Prints([], Ascii(""))
  {
  }

  lemma FixedStarts()
    ensures Ascii("/orgs/") == Ascii("/orgs") + [SLASH] && Ascii("/projects/") == Ascii("/projects") + [SLASH]
  {
    AsciiJoins("/orgs", "/");
    AsciiJoins("/projects", "/");
    assert "/orgs" + "/" == "/orgs/" && "/projects" + "/" == "/projects/" && Ascii("/") == [SLASH];
  }

  lemma InOrgPrints(org: Text, rest: seq<Piece>, tail: string)
    requires Encode(org).Some? && Prints(rest, Ascii(tail))
    ensures Prints(InOrganization(org, rest), OrgPath(Encode(org).value, tail))
  {
    PrintsWord("orgs");
    PrintsOne(Value(org));
    PrintsBoth([Word("orgs")], [Value(org)], Ascii("/orgs"), [SLASH] + Encode(org).value);
    assert [Word("orgs")] + [Value(org)] == [Word("orgs"), Value(org)];
    PrintsBoth([Word("orgs"), Value(org)], rest, Ascii("/orgs") + ([SLASH] + Encode(org).value), Ascii(tail));
    FixedStarts();
    Regrouped(Ascii("/orgs"), [SLASH], Encode(org).value);
  }

  /** Up to a project's id. */
  lemma ProjectStartPrints(org: Text, project: Text)
    requires Encode(org).Some? && Encode(project).Some?
    ensures Prints(InProject(org, project, []),
                   OrgPath(Encode(org).value, "/projects") + ([SLASH] + Encode(project).value))
  {
    PrintsWord("projects");
    InOrgPrints(org, [Word("projects")], "/projects");
    PrintsOne(Value(project));
    PrintsBoth(InOrganization(org, [Word("projects")]), [Value(project)],
               OrgPath(Encode(org).value, "/projects"), [SLASH] + Encode(project).value);
    assert InOrganization(org, [Word("projects")]) + [Value(project)] == InProject(org, project, []);
  }

  lemma ProjectPathJoins(o: Text, p: Text, tail: string)
    ensures OrgPath(o, "/projects") + ([SLASH] + p) + Ascii(tail) == ProjectPath(o, p, tail)
  {
    FixedStarts();
  }

  lemma InProjectPrints(org: Text, project: Text, rest: seq<Piece>, tail: string)
    requires Encode(org).Some? && Encode(project).Some? && Prints(rest, Ascii(tail))
    ensures Prints(InProject(org, project, rest), ProjectPath(Encode(org).value, Encode(project).value, tail))
  {
    var o, p := Encode(org).value, Encode(project).value;
    ProjectStartPrints(org, project);
    PrintsBoth(InProject(org, project, []), rest, OrgPath(o, "/projects") + ([SLASH] + p), Ascii(tail));
    assert InProject(org, project, []) + rest == InProject(org, project, rest);
    ProjectPathJoins(o, p, tail);
  }

  /** The printed pieces of a page of an organization, named by one word. */
  lemma OrgWordPrints(org: Text, word: string)
    requires Encode(org).Some?
    ensures Prints(InOrganization(org, [Word(word)]), OrgPath(Encode(org).value, "/" + word))
  {
    PrintsWord(word);
    InOrgPrints(org, [Word(word)], "/" + word);
  }

  lemma ProjectWordPrints(org: Text, project: Text, word: string)
    requires Encode(org).Some? && Encode(project).Some?
    ensures Prints(InProject(org, project, [Word(word)]),
                   ProjectPath(Encode(org).value, Encode(project).value, "/" + word))
  {
    PrintsWord(word);
    InProjectPrints(org, project, [Word(word)], "/" + word);
  }

  /** A plain word is encoded as it stands. */
  lemma {:induction false} PlainEncodes(s: Text)
    requires forall i :: 0 <= i < |s| ==> Unescaped(s[i])
    ensures Encode(s) == Some(s)
  {
    if |s| > 0 {
      PlainEncodes(s[1..]);
      assert s == [s[0]] + s[1..];
    }
  }

  /** Letters, digits and dashes. */
  predicate Slug(word: string) {
    word != "" && forall i :: 0 <= i < |word| ==> 'a' <= word[i] <= 'z' || '0' <= word[i] <= '9' || word[i] == '-'
  }

  lemma SlugPrints(word: string)
    requires Slug(word)
    ensures Prints([Value(Ascii(word))], Ascii("/" + word))
  {
    PlainEncodes(Ascii(word));
    PrintsOne(Value(Ascii(word)));
    AsciiJoins("/", word);
  }

  lemma SectionPrints(pieces: seq<Piece>, word: string, sub: Option<string>)
    requires Prints(pieces, Ascii("/" + word)) && (sub.Some? ==> Slug(sub.value))
    ensures Prints(pieces + Maybe(sub), Ascii(Under(word, sub)))
  {
    if sub.Some? {
      SlugPrints(sub.value);
      PrintsBoth(pieces, Maybe(sub), Ascii("/" + word), Ascii("/" + sub.value));
      AsciiJoins("/" + word, "/" + sub.value);
    } else {
      assert pieces + Maybe(sub) == pieces && "/" + word + "" == "/" + word;
    }
  }

  // The words of the tables are slugs.

  lemma WorkspaceSectionSlug(i: nat)
    requires i < |WORKSPACE_SECTIONS|
    ensures Slug(WORKSPACE_SECTIONS[i])
  {
  }

  lemma ProjectSectionSlug(i: nat)
    requires i < |PROJECT_SECTIONS|
    ensures Slug(PROJECT_SECTIONS[i])
  {
  }

  lemma DatabaseSectionSlug(i: nat)
    requires i < |DATABASE_SECTIONS|
    ensures Slug(DATABASE_SECTIONS[i])
  {
  }

  lemma SubSectionSlug(section: string, sub: string)
    requires Listed(SubSections(section), sub)
    ensures Slug(sub)
  {
  }

  // ---------------------------------------------------------------- every page has its address

  lemma OrganizationPageIsOneWord(r: Route)
    requires IsOrganizationPage(r)
    ensures Pieces(r) == InOrganization(OrgOf(r), [Word(WordOf(r))])
  {
  }

  lemma ProjectPageIsOneWord(r: Route)
    requires IsProjectPage(r) && GoodRoute(r)
    ensures Pieces(r) == InProject(OrgOf(r), ProjectOf(r), [Word(WordOf(r))]) && GoodId(ProjectOf(r))
  {
  }

  lemma OneWordPagesPrint(r: Route)
    requires GoodRoute(r) && (IsOrganizationPage(r) || IsProjectPage(r))
    ensures Encode(OrgOf(r)).Some? && Encode(ProjectOf(r)).Some?
    ensures Prints(Pieces(r), AddressOf(r, Encode(OrgOf(r)).value, Encode(ProjectOf(r)).value))
  {
    EncodesExactlyWellFormed(OrgOf(r));
    if IsOrganizationPage(r) {
      OrganizationPageIsOneWord(r);
      OrgWordPrints(OrgOf(r), WordOf(r));
    } else {
      ProjectPageIsOneWord(r);
      EncodesExactlyWellFormed(ProjectOf(r));
      ProjectWordPrints(OrgOf(r), ProjectOf(r), WordOf(r));
    }
  }

  lemma BarePagesPrint(org: Text, project: Text)
    requires GoodId(org) && GoodId(project)
    ensures Encode(org).Some? && Encode(project).Some?
    ensures Prints(Pieces(Organization(org)), OrgPath(Encode(org).value, ""))
    ensures Prints(Pieces(Project(org, project)), ProjectPath(Encode(org).value, Encode(project).value, ""))
  {
    EncodesExactlyWellFormed(org);
    EncodesExactlyWellFormed(project);
    PrintsNothing();
    InOrgPrints(org, [], "");
    InProjectPrints(org, project, [], "");
  }

  lemma SettingsKeysPrint()
    ensures Prints([Word("settings"), Word("api-keys")], Ascii("/settings/api-keys"))
  {
    PrintsWord("settings");
    PrintsWord("api-keys");
    PrintsBoth([Word("settings")], [Word("api-keys")], Ascii("/" + "settings"), Ascii("/" + "api-keys"));
    AsciiJoins("/" + "settings", "/" + "api-keys");
    assert [Word("settings")] + [Word("api-keys")] == [Word("settings"), Word("api-keys")];
    assert "/" + "settings" + ("/" + "api-keys") == "/settings/api-keys";
  }

  lemma ApiKeysPrint(org: Text)
    requires GoodId(org)
    ensures Encode(org).Some? && Prints(Pieces(ApiKeys(org)), OrgPath(Encode(org).value, "/settings/api-keys"))
  {
    EncodesExactlyWellFormed(org);
    SettingsKeysPrint();
    InOrgPrints(org, [Word("settings"), Word("api-keys")], "/settings/api-keys");
  }

  lemma WorkspaceSectionPrints(org: Text, section: string, sub: Option<string>)
    requires GoodRoute(WorkspaceSection(org, section, sub))
    ensures Encode(org).Some?
    ensures Prints(Pieces(WorkspaceSection(org, section, sub)), OrgPath(Encode(org).value, Under(section, sub)))
  {
    EncodesExactlyWellFormed(org);
    var i := ListedAt(WORKSPACE_SECTIONS, section);
    WorkspaceSectionSlug(i);
    SlugPrints(section);
    if sub.Some? { SubSectionSlug(section, sub.value); }
    SectionPrints([Value(Ascii(section))], section, sub);
    InOrgPrints(org, [Value(Ascii(section))] + Maybe(sub), Under(section, sub));
  }

  lemma ProjectSectionPrints(org: Text, project: Text, section: string, sub: Option<string>)
    requires GoodRoute(ProjectSection(org, project, section, sub))
    ensures Encode(org).Some? && Encode(project).Some?
    ensures Prints(Pieces(ProjectSection(org, project, section, sub)),
                   ProjectPath(Encode(org).value, Encode(project).value, Under(section, sub)))
  {
    EncodesExactlyWellFormed(org);
    EncodesExactlyWellFormed(project);
    var i := ListedAt(PROJECT_SECTIONS, section);
    ProjectSectionSlug(i);
    SlugPrints(section);
    if sub.Some? { SubSectionSlug(section, sub.value); }
    SectionPrints([Value(Ascii(section))], section, sub);
    InProjectPrints(org, project, [Value(Ascii(section))] + Maybe(sub), Under(section, sub));
  }

  lemma DatabasePrints(org: Text, project: Text, section: Option<string>)
    requires GoodRoute(Database(org, project, section))
    ensures Encode(org).Some? && Encode(project).Some?
    ensures Prints(Pieces(Database(org, project, section)),
                   ProjectPath(Encode(org).value, Encode(project).value, Under("database", section)))
  {
    EncodesExactlyWellFormed(org);
    EncodesExactlyWellFormed(project);
    if section.Some? {
      var i := ListedAt(DATABASE_SECTIONS, section.value);
      DatabaseSectionSlug(i);
    }
    PrintsWord("database");
    SectionPrints([Word("database")], "database", section);
    InProjectPrints(org, project, [Word("database")] + Maybe(section), Under("database", section));
  }

  lemma OrganizationsPrint()
    ensures Prints(Pieces(Organizations), Ascii("/orgs"))
  {
    PrintsWord("orgs");
  }

  lemma ComposedPagesPrint(r: Route)
    requires GoodRoute(r) && Composed(r)
    ensures Encode(OrgOf(r)).Some? && Encode(ProjectOf(r)).Some?
    ensures Prints(Pieces(r), AddressOf(r, Encode(OrgOf(r)).value, Encode(ProjectOf(r)).value))
  {
    if IsOrganizationPage(r) || IsProjectPage(r) {
      OneWordPagesPrint(r);
    } else {
      match r
      case Organizations => OrganizationsPrint();
      case Organization(org) => BarePagesPrint(org, org);
      case Project(org, project) => BarePagesPrint(org, project);
      case ApiKeys(org) => ApiKeysPrint(org);
      case Database(org, project, section) => DatabasePrints(org, project, section);
      case WorkspaceSection(org, section, sub) => WorkspaceSectionPrints(org, section, sub);
      case ProjectSection(org, project, section, sub) => ProjectSectionPrints(org, project, section, sub);
    }
  }

  lemma ToPathPrints(r: Route, text: Text)
    requires Composed(r) && Prints(Pieces(r), text)
    ensures ToPath(r) == Some(text)
  {
  }

  /** Every good route prints its page's own address, its ids encoded in their places. */
  lemma EveryPageHasItsAddress(r: Route)
    requires GoodRoute(r)
    ensures Encode(OrgOf(r)).Some? && Encode(ProjectOf(r)).Some?
    ensures ToPath(r) == Some(AddressOf(r, Encode(OrgOf(r)).value, Encode(ProjectOf(r)).value))
  {
    if Composed(r) {
      ComposedPagesPrint(r);
      ToPathPrints(r, AddressOf(r, Encode(OrgOf(r)).value, Encode(ProjectOf(r)).value));
    } else {
      assert Ascii("/") == [SLASH];
    }
  }

  // ---------------------------------------------------------------- every parse names its path

  /** A project's `data` page is its database. */
  predicate IsData(r: Route, s: seq<Text>) {
    |s| == 5 && Is(s[4], "data") && s[0] == ORGS && s[2] == PROJECTS && r == Database(s[1], s[3], None)
  }

  /** The route has these components, or they are the alias of a database's. */
  predicate Names(r: Route, s: seq<Text>) {
    r.NotFound? || TextsOf(Pieces(r)) == s || IsData(r, s)
  }

  lemma WordTexts(org: Text, project: Text, segment: Text, word: string)
    requires Is(segment, word) && Plain(word)
    ensures TextsOf(InOrganization(org, [Word(word)])) == [ORGS, org, segment]
    ensures TextsOf(InProject(org, project, [Word(word)])) == [ORGS, org, PROJECTS, project, segment]
  {
    WordWellFormed(segment, word);
    TextsInOrganization(org, [Word(word)]);
    TextsInProject(org, project, [Word(word)]);
    TextsOfOne(Word(word));
  }

  lemma OrganizationPageNames(org: Text, segment: Text)
    requires WorkspacePage(org, segment).Some?
    ensures TextsOf(Pieces(WorkspacePage(org, segment).value)) == [ORGS, org, segment]
  {
    if Is(segment, "audit") || Is(segment, "observability") || Is(segment, "security") || Is(segment, "deployments") {
      FirstOrganizationPageNames(org, segment);
    } else {
      LaterOrganizationPageNames(org, segment);
    }
  }

  lemma FirstOrganizationPageNames(org: Text, segment: Text)
    requires Is(segment, "audit") || Is(segment, "observability") || Is(segment, "security")
          || Is(segment, "deployments")
    ensures WorkspacePage(org, segment).Some?
    ensures TextsOf(Pieces(WorkspacePage(org, segment).value)) == [ORGS, org, segment]
  {
    if Is(segment, "audit") || Is(segment, "observability") {
      AuditPageNames(org, segment);
    } else if Is(segment, "security") {
      WordTexts(org, [], segment, "security");
    } else {
      WordTexts(org, [], segment, "deployments");
    }
  }

  lemma AuditPageNames(org: Text, segment: Text)
    requires Is(segment, "audit") || Is(segment, "observability")
    ensures WorkspacePage(org, segment).Some?
    ensures TextsOf(Pieces(WorkspacePage(org, segment).value)) == [ORGS, org, segment]
  {
    if Is(segment, "audit") {
      WordTexts(org, [], segment, "audit");
    } else {
      WordTexts(org, [], segment, "observability");
    }
  }

  lemma LaterOrganizationPageNames(org: Text, segment: Text)
    requires !Is(segment, "audit") && !Is(segment, "observability") && !Is(segment, "security")
    requires !Is(segment, "deployments") && WorkspacePage(org, segment).Some?
    ensures TextsOf(Pieces(WorkspacePage(org, segment).value)) == [ORGS, org, segment]
  {
    if Is(segment, "members") || Is(segment, "billing") {
      MembersPageNames(org, segment);
    } else if Is(segment, "docs") {
      WordTexts(org, [], segment, "docs");
    } else {
      WordTexts(org, [], segment, "settings");
    }
  }

  lemma MembersPageNames(org: Text, segment: Text)
    requires !Is(segment, "audit") && !Is(segment, "observability") && !Is(segment, "security")
    requires !Is(segment, "deployments") && (Is(segment, "members") || Is(segment, "billing"))
    ensures WorkspacePage(org, segment).Some?
    ensures TextsOf(Pieces(WorkspacePage(org, segment).value)) == [ORGS, org, segment]
  {
    if Is(segment, "members") {
      WordTexts(org, [], segment, "members");
    } else {
      WordTexts(org, [], segment, "billing");
    }
  }

  lemma ProjectPageNames(org: Text, project: Text, segment: Text)
    requires project != [] && ProjectPage(org, project, segment).Some?
    ensures Names(ProjectPage(org, project, segment).value, [ORGS, org, PROJECTS, project, segment])
  {
    if Is(segment, "domains") || Is(segment, "security") || Is(segment, "setup") || Is(segment, "git") {
      FirstProjectPageNames(org, project, segment);
    } else {
      LaterProjectPageNames(org, project, segment);
    }
  }

  lemma FirstProjectPageNames(org: Text, project: Text, segment: Text)
    requires project != []
    requires Is(segment, "domains") || Is(segment, "security") || Is(segment, "setup") || Is(segment, "git")
    ensures ProjectPage(org, project, segment).Some?
    ensures TextsOf(Pieces(ProjectPage(org, project, segment).value)) == [ORGS, org, PROJECTS, project, segment]
  {
    if Is(segment, "domains") {
      WordTexts(org, project, segment, "domains");
    } else if Is(segment, "security") {
      WordTexts(org, project, segment, "security");
    } else if Is(segment, "setup") {
      WordTexts(org, project, segment, "setup");
    } else {
      WordTexts(org, project, segment, "git");
    }
  }

  lemma LaterProjectPageNames(org: Text, project: Text, segment: Text)
    requires !Is(segment, "domains") && !Is(segment, "security") && !Is(segment, "setup") && !Is(segment, "git")
    requires ProjectPage(org, project, segment).Some?
    ensures Names(ProjectPage(org, project, segment).value, [ORGS, org, PROJECTS, project, segment])
  {
    if Is(segment, "env") {
      WordTexts(org, project, segment, "env");
    } else if Is(segment, "logs") {
      WordTexts(org, project, segment, "logs");
    } else if Is(segment, "analytics") {
      WordTexts(org, project, segment, "analytics");
    } else {
      LastProjectPageNames(org, project, segment);
    }
  }

  lemma LastProjectPageNames(org: Text, project: Text, segment: Text)
    requires !Is(segment, "domains") && !Is(segment, "security") && !Is(segment, "setup") && !Is(segment, "git")
    requires !Is(segment, "env") && !Is(segment, "logs") && !Is(segment, "analytics")
    requires ProjectPage(org, project, segment).Some?
    ensures Names(ProjectPage(org, project, segment).value, [ORGS, org, PROJECTS, project, segment])
  {
    if Is(segment, "settings") {
      WordTexts(org, project, segment, "settings");
    } else if Is(segment, "database") {
      WordTexts(org, project, segment, "database");
      assert [Word("database")] + Maybe(None) == [Word("database")];
    }
  }

  lemma WorkspaceCatchAllNames(clean: Text, org: Text, segment: Text)
    ensures Names(WorkspaceCatchAll(clean, org, segment), [ORGS, org, segment])
  {
    var section := Lookup(WORKSPACE_SECTIONS, segment);
    if section.Some? {
      var i := ListedAt(WORKSPACE_SECTIONS, section.value);
      WorkspaceSectionPlain(i);
      WordWellFormed(segment, section.value);
      WorkspaceTexts(org, section.value, None);
    }
  }

  lemma ProjectCatchAllNames(clean: Text, org: Text, project: Text, segment: Text)
    ensures Names(ProjectCatchAll(clean, org, project, segment), [ORGS, org, PROJECTS, project, segment])
  {
    var section := Lookup(PROJECT_SECTIONS, segment);
    if section.Some? {
      var i := ListedAt(PROJECT_SECTIONS, section.value);
      ProjectSectionPlain(i);
      WordWellFormed(segment, section.value);
      ProjectTexts(org, project, section.value, None);
    }
  }

  lemma WorkspaceSubNames(clean: Text, org: Text, segment: Text, last: Text)
    ensures Names(WorkspaceSubPage(clean, org, segment, last), [ORGS, org, segment, last])
  {
    var section := Lookup(WORKSPACE_SECTIONS, segment);
    if section.Some? && Lookup(SubSections(section.value), last).Some? {
      var sub := Lookup(SubSections(section.value), last).value;
      var i := ListedAt(WORKSPACE_SECTIONS, section.value);
      WorkspaceSectionPlain(i);
      WordWellFormed(segment, section.value);
      SubSectionsPlain(section.value, sub);
      WordWellFormed(last, sub);
      WorkspaceTexts(org, section.value, Some(sub));
    }
  }

  lemma ProjectSubNames(clean: Text, org: Text, project: Text, segment: Text, last: Text)
    ensures Names(ProjectSubPage(clean, org, project, segment, last), [ORGS, org, PROJECTS, project, segment, last])
  {
    var section := Lookup(PROJECT_SECTIONS, segment);
    if section.Some? && Lookup(SubSections(section.value), last).Some? {
      var sub := Lookup(SubSections(section.value), last).value;
      var i := ListedAt(PROJECT_SECTIONS, section.value);
      ProjectSectionPlain(i);
      WordWellFormed(segment, section.value);
      SubSectionsPlain(section.value, sub);
      WordWellFormed(last, sub);
      ProjectTexts(org, project, section.value, Some(sub));
    }
  }

  lemma DatabasePageNames(clean: Text, org: Text, project: Text, segment: Text, last: Text)
    requires Is(segment, "database")
    ensures Names(DatabasePage(clean, org, project, Lookup(DATABASE_SECTIONS, last)),
                  [ORGS, org, PROJECTS, project, segment, last])
  {
    var section := Lookup(DATABASE_SECTIONS, last);
    if section.Some? {
      DatabaseSectionsPlain(section.value);
      WordWellFormed(segment, "database");
      WordWellFormed(last, section.value);
      DatabaseTexts(org, project, section.value);
    }
  }

  lemma ShortNames(org: Text, project: Text)
    ensures TextsOf(Pieces(Organizations)) == [ORGS]
    ensures TextsOf(Pieces(Organization(org))) == [ORGS, org]
    ensures TextsOf(Pieces(Project(org, project))) == [ORGS, org, PROJECTS, project]
  {
    TextsOfOne(Word("orgs"));
    TextsInOrganization(org, []);
    TextsInProject(org, project, []);
  }

  lemma ThreeNames(clean: Text, org: Text, segment: Text)
    ensures Names(RouteOf(clean, [ORGS, org, segment]), [ORGS, org, segment])
  {
    RouteOfThree(clean, org, segment);
    FixedWords();
    if Is(segment, "projects") {
      WordTexts(org, [], segment, "projects");
    } else if WorkspacePage(org, segment).Some? {
      OrganizationPageNames(org, segment);
    } else {
      WorkspaceCatchAllNames(clean, org, segment);
    }
  }

  lemma FourNames(clean: Text, org: Text, segment: Text, last: Text)
    ensures Names(RouteOf(clean, [ORGS, org, segment, last]), [ORGS, org, segment, last])
  {
    RouteOfFour(clean, org, segment, last);
    FixedWords();
    if Is(segment, "projects") {
      WordWellFormed(segment, "projects");
      ShortNames(org, last);
    } else if Is(segment, "settings") && Is(last, "api-keys") {
      ApiKeysTexts(org);
      WordWellFormed(segment, "settings");
      WordWellFormed(last, "api-keys");
      var s := TextsOf(Pieces(ApiKeys(org)));
      WordWellFormed(s[2], "settings");
      WordWellFormed(s[3], "api-keys");
      assert s == [ORGS, org, segment, last];
    } else {
      WorkspaceSubNames(clean, org, segment, last);
    }
  }

  lemma FiveNames(clean: Text, org: Text, project: Text, segment: Text)
    requires project != []
    ensures Names(RouteOf(clean, [ORGS, org, PROJECTS, project, segment]), [ORGS, org, PROJECTS, project, segment])
  {
    RouteOfFive(clean, org, project, segment);
    if Is(segment, "deployments") {
      WordTexts(org, project, segment, "deployments");
    } else if ProjectPage(org, project, segment).Some? {
      ProjectPageNames(org, project, segment);
    } else {
      ProjectCatchAllNames(clean, org, project, segment);
    }
  }

  lemma SixNames(clean: Text, org: Text, project: Text, segment: Text, last: Text)
    ensures Names(RouteOf(clean, [ORGS, org, PROJECTS, project, segment, last]),
                  [ORGS, org, PROJECTS, project, segment, last])
  {
    RouteOfSix(clean, org, project, segment, last);
    if Is(segment, "database") {
      DatabasePageNames(clean, org, project, segment, last);
    } else {
      ProjectSubNames(clean, org, project, segment, last);
    }
  }

  lemma LongNames(clean: Text, s: seq<Text>)
    requires |s| >= 5 && s[0] == ORGS && forall i :: 0 <= i < |s| ==> s[i] != []
    ensures Names(RouteOf(clean, s), s)
  {
    if Is(s[2], "projects") {
      FixedWords();
      WordWellFormed(s[2], "projects");
      if |s| == 5 {
        FiveNames(clean, s[1], s[3], s[4]);
        assert s == [ORGS, s[1], PROJECTS, s[3], s[4]];
      } else if |s| == 6 {
        SixNames(clean, s[1], s[3], s[4], s[5]);
        assert s == [ORGS, s[1], PROJECTS, s[3], s[4], s[5]];
      }
    }
  }

  /** Whatever its components, a path that is found names a route with exactly those components, or the alias. */
  lemma ParsedNamesItsPath(clean: Text, s: seq<Text>)
    requires forall i :: 0 <= i < |s| ==> s[i] != []
    ensures Names(RouteOf(clean, s), s)
  {
    if At(s, 0, "orgs") {
      FixedWords();
      WordWellFormed(s[0], "orgs");
      if |s| == 1 {
        ShortNames([], []);
        assert s == [ORGS];
      } else if |s| == 2 {
        ShortNames(s[1], []);
        assert s == [ORGS, s[1]];
      } else if |s| == 3 {
        ThreeNames(clean, s[1], s[2]);
        assert s == [ORGS, s[1], s[2]];
      } else if |s| == 4 {
        FourNames(clean, s[1], s[2], s[3]);
        assert s == [ORGS, s[1], s[2], s[3]];
      } else {
        LongNames(clean, s);
      }
    }
  }

  /** And the alias does lead there: whatever the ids, `data` is `database`. */
  lemma DataIsDatabase(clean: Text, org: Text, project: Text)
    ensures RouteOf(clean, [ORGS, org, PROJECTS, project, Ascii("data")]) == Database(org, project, None)
  {
    DataPage(clean, org, project);
    WordIs("data");
    WordTexts(org, project, Ascii("data"), "data");
  }

  lemma WordIs(word: string)
    requires Plain(word)
    ensures Is(Ascii(word), word)
  {
    AsciiIs(word);
  }

  lemma DataPage(clean: Text, org: Text, project: Text)
    ensures RouteOf(clean, TextsOf(InProject(org, project, [Word("data")]))) == Database(org, project, None)
  {
    ProjectPageReads(clean, org, project, "data");
  }

  /** The components are those of some good route. */
  ghost predicate HasRoute(s: seq<Text>) {
    exists r :: GoodRoute(r) && Composed(r) && TextsOf(Pieces(r)) == s
  }

  /** The components are those of the alias. */
  predicate HasAlias(s: seq<Text>) {
    |s| == 5 && s[0] == ORGS && s[2] == PROJECTS && s[4] == Ascii("data")
  }

  lemma NamedHasRoute(r: Route, s: seq<Text>)
    requires AllWellFormed(s) && Names(r, s) && Faithful(r, s) && !r.NotFound?
    ensures HasRoute(s) || HasAlias(s)
  {
    if IsData(r, s) { WordWellFormed(s[4], "data"); }
  }

  lemma RoutesAreFound(clean: Text, s: seq<Text>)
    requires HasRoute(s)
    ensures !RouteOf(clean, s).NotFound?
  {
    var r :| GoodRoute(r) && Composed(r) && TextsOf(Pieces(r)) == s;
    GoodReadsBack(clean, r);
  }

  /**
   A path below the root is found exactly when its components are a route's own, or the
   alias of a database's: no page is missing, and none is made up.
   */
  lemma FoundExactly(clean: Text, s: seq<Text>)
    requires AllWellFormed(s) && forall i :: 0 <= i < |s| ==> s[i] != []
    ensures !RouteOf(clean, s).NotFound? <==> HasRoute(s) || HasAlias(s)
  {
    ParsedNamesItsPath(clean, s);
    RouteOfFaithful(clean, s);
    if !RouteOf(clean, s).NotFound? { NamedHasRoute(RouteOf(clean, s), s); }
    if HasRoute(s) { RoutesAreFound(clean, s); }
    if HasAlias(s) {
      DataIsDatabase(clean, s[1], s[3]);
      assert s == [ORGS, s[1], PROJECTS, s[3], Ascii("data")];
    }
  }
}
