/** Printing a route and parsing it back, and parsing a path and printing it. */
module RouteRoundTrips {
  import opened Contracts
  import opened UriText
  import opened UrlPaths
  import opened WebRoutes

  // ---------------------------------------------------------------- good routes

  predicate GoodId(id: Text) {
    id != [] && WellFormed(id)
  }

  predicate GoodSub(section: string, sub: Option<string>) {
    sub.Some? ==> Listed(SubSections(section), sub.value)
  }

  /** A route as the program builds it: ids that are there and can be printed, and declared sections and sub-items. */
  predicate GoodRoute(r: Route) {
    match r
    case Landing => true
    case AuthCallback => true
    case Organizations => true
    case Database(org, project, section) =>
      GoodId(org) && GoodId(project) && (section.Some? ==> Listed(DATABASE_SECTIONS, section.value))
    case Security(org, project) => GoodId(org) && (project.Some? ==> GoodId(project.value))
    case WorkspaceSection(org, section, sub) =>
      GoodId(org) && Listed(WORKSPACE_SECTIONS, section) && GoodSub(section, sub)
    case ProjectSection(org, project, section, sub) =>
      GoodId(org) && GoodId(project) && Listed(PROJECT_SECTIONS, section) && GoodSub(section, sub)
    case NotFound(_) => false
    case Organization(org) => GoodId(org)
    case Projects(org) => GoodId(org)
    case Audit(org) => GoodId(org)
    case Observability(org) => GoodId(org)
    case Billing(org) => GoodId(org)
    case OrgDeployments(org) => GoodId(org)
    case Members(org) => GoodId(org)
    case Settings(org) => GoodId(org)
    case ApiKeys(org) => GoodId(org)
    case Docs(org) => GoodId(org)
    case _ => GoodId(r.organizationId) && GoodId(r.projectId)
  }

  // ---------------------------------------------------------------- words

  /** A word that prints as itself. */
  predicate Plain(word: string) {
    word != "" && forall i :: 0 <= i < |word| ==> word[i] < 128 as char && word[i] != '/' && word[i] != '%'
  }

  lemma IsOne(segment: Text, a: string, b: string)
    requires Is(segment, a) && Is(segment, b)
    ensures a == b
  {
  }

  /** A segment that is one word is no other. */
  lemma IsOnly(segment: Text, word: string)
    requires Is(segment, word)
    ensures forall other: string :: Is(segment, other) ==> other == word
  {
    forall other: string | Is(segment, other) ensures other == word { IsOne(segment, word, other); }
  }

  lemma AsciiIs(word: string)
    requires Plain(word)
    ensures Is(Ascii(word), word) && Ascii(word) != [] && SlashFree(Ascii(word)) && WellFormed(Ascii(word))
  {
    AsciiPrefix(Ascii(word), |word|);
  }

  lemma {:induction false} DecodePlainText(s: Text)
    requires forall i :: 0 <= i < |s| ==> s[i] != PERCENT
    ensures Decode(s) == Some(s)
  {
    if |s| > 0 {
      DecodePlainText(s[1..]);
      assert s == [s[0]] + s[1..];
    }
  }

  lemma ListedAt(words: seq<string>, word: string) returns (i: nat)
    requires Listed(words, word)
    ensures i < |words| && words[i] == word
  {
    i :| i < |words| && words[i] == word;
  }

  lemma {:induction false} LookupFinds(words: seq<string>, word: string)
    requires Listed(words, word) && Plain(word)
    ensures Lookup(words, Ascii(word)) == Some(word)
  {
    AsciiIs(word);
    if Is(Ascii(word), words[0]) {
      IsOne(Ascii(word), word, words[0]);
    } else {
      var i := ListedAt(words, word);
      assert words[1..][i - 1] == word;
      LookupFinds(words[1..], word);
    }
  }

  // ---------------------------------------------------------------- printing

  predicate GoodPiece(piece: Piece) {
    if piece.Word? then Plain(piece.word) else GoodId(piece.text)
  }

  lemma PrintsGood(piece: Piece)
    requires GoodPiece(piece)
    ensures Printed(piece).Some? && Printed(piece).value != [] && SlashFree(Printed(piece).value)
    ensures Decode(Printed(piece).value) == Some(TextOf(piece))
  {
    if piece.Word? {
      AsciiIs(piece.word);
      DecodePlainText(Ascii(piece.word));
    } else {
      EncodesExactlyWellFormed(piece.text);
      EncodeCoded(piece.text);
      DecodeEncode(piece.text);
    }
  }

  lemma {:induction false} PrintAllGood(pieces: seq<Piece>)
    requires forall i :: 0 <= i < |pieces| ==> GoodPiece(pieces[i])
    ensures PrintAll(pieces).Some?
    ensures forall i :: 0 <= i < |pieces| ==> PrintAll(pieces).value[i] != [] && SlashFree(PrintAll(pieces).value[i])
    ensures forall i :: 0 <= i < |pieces| ==> Some(PrintAll(pieces).value[i]) == Printed(pieces[i])
    ensures DecodeAll(PrintAll(pieces).value) == Some(TextsOf(pieces))
  {
    if |pieces| > 0 {
      PrintsGood(pieces[0]);
      PrintAllGood(pieces[1..]);
      assert PrintAll(pieces).value[1..] == PrintAll(pieces[1..]).value;
    }
  }

  lemma NotTheCallback(path: Text)
    requires |path| >= 2 && path[1] == 'o' as int
    ensures !Is(path, "/auth/callback")
  {
    assert "/auth/callback"[1] == 'a';
  }

  /** A path printed from good pieces is clean, names no fixed page, and has the pieces' texts as its components. */
  lemma ComponentsPrinted(pieces: seq<Piece>)
    requires |pieces| > 0 && pieces[0] == Word("orgs")
    requires forall i :: 0 <= i < |pieces| ==> GoodPiece(pieces[i])
    ensures PrintAll(pieces).Some?
    ensures var path := Joined(PrintAll(pieces).value);
            && Clean(path) == path && path != [SLASH] && !Is(path, "/auth/callback")
            && Components(path) == Some(TextsOf(pieces))
  {
    PrintAllGood(pieces);
    var printed := PrintAll(pieces).value;
    ComponentsJoined(printed);
    JoinedEnd(printed);
    assert Some(printed[0]) == Printed(pieces[0]);
    NotTheCallback(Joined(printed));
  }

  // ---------------------------------------------------------------- the tables do not collide

  lemma WorkspaceSectionPlain(i: nat)
    requires i < 18
    ensures Plain(WORKSPACE_SECTIONS[i])
  {
    if i >= 9 { LaterWorkspaceSectionPlain(i); }
  }

  lemma LaterWorkspaceSectionPlain(i: nat)
    requires 9 <= i < 18
    ensures Plain(WORKSPACE_SECTIONS[i])
  {
    if i < 14 {
    } else {
    }
  }

  lemma ProjectSectionPlain(i: nat)
    requires i < 15
    ensures Plain(PROJECT_SECTIONS[i])
  {
    if i < 4 {
    } else if i < 8 {
    } else if i < 12 {
    } else {
    }
  }

  lemma WorkspaceSectionApart(i: nat)
    requires i < 18
    ensures var section := WORKSPACE_SECTIONS[i];
            && section != "projects" && section != "audit" && section != "observability" && section != "security"
            && section != "deployments" && section != "members" && section != "billing" && section != "docs"
            && section != "settings"
  {
  }

  lemma ProjectSectionApart(i: nat)
    requires i < 15
    ensures var section := PROJECT_SECTIONS[i];
            && section != "deployments" && section != "domains" && section != "security" && section != "setup"
            && section != "git"
            && section != "env" && section != "logs" && section != "analytics" && section != "settings"
            && section != "database"
            && section != "data"
  {
  }

  lemma DatabaseSectionsPlain(section: string)
    requires Listed(DATABASE_SECTIONS, section)
    ensures Plain(section)
  {
    var i := ListedAt(DATABASE_SECTIONS, section);
    DatabaseSectionPlain(i);
  }

  lemma DatabaseSectionPlain(i: nat)
    requires i < 9
    ensures Plain(DATABASE_SECTIONS[i])
  {
    if i < 3 {
    } else if i < 6 {
    } else {
    }
  }

  const SUB_WORDS: seq<string> :=
    ["overview", "traffic", "rules", "audit-log", "caches", "entities", "sdk-keys", "buckets", "api-keys", "models",
     "playground"]

  lemma SubWordPlain(i: nat)
    requires i < 11
    ensures Plain(SUB_WORDS[i])
  {
    if i < 4 {
    } else if i < 8 {
    } else {
    }
  }

  lemma SubSectionsPlain(section: string, sub: string)
    requires Listed(SubSections(section), sub)
    ensures Plain(sub)
  {
    var i := ListedAt(SubSections(section), sub);
    assert sub == SUB_WORDS[0] || sub == SUB_WORDS[1] || sub == SUB_WORDS[2] || sub == SUB_WORDS[3]
        || sub == SUB_WORDS[4] || sub == SUB_WORDS[5] || sub == SUB_WORDS[6] || sub == SUB_WORDS[7]
        || sub == SUB_WORDS[8] || sub == SUB_WORDS[9] || sub == SUB_WORDS[10];
    var k :| 0 <= k < 11 && SUB_WORDS[k] == sub;
    SubWordPlain(k);
  }

  // ---------------------------------------------------------------- the parser, by length

  const ORGS: Text := Ascii("orgs")
  const PROJECTS: Text := Ascii("projects")

  lemma FixedWords()
    ensures Is(ORGS, "orgs") && Is(PROJECTS, "projects") && Plain("orgs") && Plain("projects")
  {
    AsciiIs("orgs");
    AsciiIs("projects");
  }

  function OrElseRoute(page: Option<Route>, other: Route): Route {
    if page.Some? then page.value else other
  }

  function WorkspaceCatchAll(clean: Text, org: Text, segment: Text): Route {
    var section := Lookup(WORKSPACE_SECTIONS, segment);
    if section.Some? then WorkspaceSection(org, section.value, None) else NotFound(clean)
  }

  lemma RouteOfThree(clean: Text, org: Text, segment: Text)
    ensures RouteOf(clean, [ORGS, org, segment])
         == if Is(segment, "projects") then Projects(org)
            else OrElseRoute(WorkspacePage(org, segment), WorkspaceCatchAll(clean, org, segment))
  {
    FixedWords();
  }

  function WorkspaceSubPage(clean: Text, org: Text, segment: Text, sub: Text): Route {
    var section := Lookup(WORKSPACE_SECTIONS, segment);
    if section.Some? && Lookup(SubSections(section.value), sub).Some?
    then WorkspaceSection(org, section.value, Lookup(SubSections(section.value), sub))
    else NotFound(clean)
  }

  lemma SectionOfFour(clean: Text, org: Text, segment: Text, last: Text)
    ensures SectionOf(clean, [ORGS, org, segment, last]) == WorkspaceSubPage(clean, org, segment, last)
  {
    FixedWords();
  }

  lemma RouteOfFour(clean: Text, org: Text, segment: Text, last: Text)
    ensures RouteOf(clean, [ORGS, org, segment, last])
         == if Is(segment, "projects") then Project(org, last)
            else if Is(segment, "settings") && Is(last, "api-keys") then ApiKeys(org)
            else WorkspaceSubPage(clean, org, segment, last)
  {
    FixedWords();
    SectionOfFour(clean, org, segment, last);
  }

  function ProjectCatchAll(clean: Text, org: Text, project: Text, segment: Text): Route {
    var section := Lookup(PROJECT_SECTIONS, segment);
    if section.Some? then ProjectSection(org, project, section.value, None) else NotFound(clean)
  }

  lemma RouteOfFive(clean: Text, org: Text, project: Text, segment: Text)
    ensures RouteOf(clean, [ORGS, org, PROJECTS, project, segment])
         == if Is(segment, "deployments") then Deployments(org, project)
            else OrElseRoute(ProjectPage(org, project, segment), ProjectCatchAll(clean, org, project, segment))
  {
    FixedWords();
  }

  function ProjectSubPage(clean: Text, org: Text, project: Text, segment: Text, sub: Text): Route {
    var section := Lookup(PROJECT_SECTIONS, segment);
    if section.Some? && Lookup(SubSections(section.value), sub).Some?
    then ProjectSection(org, project, section.value, Lookup(SubSections(section.value), sub))
    else NotFound(clean)
  }

  function DatabasePage(clean: Text, org: Text, project: Text, section: Option<string>): Route {
    if section.None? then NotFound(clean) else Database(org, project, section)
  }

  lemma RouteOfSix(clean: Text, org: Text, project: Text, segment: Text, last: Text)
    ensures RouteOf(clean, [ORGS, org, PROJECTS, project, segment, last])
         == if Is(segment, "database") then DatabasePage(clean, org, project, Lookup(DATABASE_SECTIONS, last))
            else ProjectSubPage(clean, org, project, segment, last)
  {
    FixedWords();
  }

  // ---------------------------------------------------------------- every good route reads back

  lemma TextsOfOne(a: Piece)
    ensures TextsOf([a]) == [TextOf(a)]
  {
    assert [a][1..] == [];
  }

  lemma TextsOfTwo(a: Piece, b: Piece)
    ensures TextsOf([a, b]) == [TextOf(a), TextOf(b)]
  {
    assert [a, b][1..] == [b];
    TextsOfOne(b);
  }

  lemma TextsInOrganization(org: Text, rest: seq<Piece>)
    ensures TextsOf(InOrganization(org, rest)) == [ORGS, org] + TextsOf(rest)
  {
    var all := InOrganization(org, rest);
    assert all[1..][1..] == rest;
  }

  lemma TextsInProject(org: Text, project: Text, rest: seq<Piece>)
    ensures TextsOf(InProject(org, project, rest)) == [ORGS, org, PROJECTS, project] + TextsOf(rest)
  {
    var all := InProject(org, project, rest);
    assert all == InOrganization(org, [Word("projects"), Value(project)] + rest);
    TextsInOrganization(org, [Word("projects"), Value(project)] + rest);
    assert ([Word("projects"), Value(project)] + rest)[1..][1..] == rest;
  }

  /** A printed word is that word and no other. */
  lemma AsciiIsOnly(word: string)
    requires Plain(word)
    ensures forall other: string :: Is(Ascii(word), other) <==> other == word
  {
    AsciiIs(word);
    IsOnly(Ascii(word), word);
  }

  /** The page of an organization, by the word it prints. */
  function PageNamed(org: Text, word: string): Option<Route> {
    if word == "audit" then Some(Audit(org))
    else if word == "observability" then Some(Observability(org))
    else if word == "security" then Some(Security(org, None))
    else if word == "deployments" then Some(OrgDeployments(org))
    else if word == "members" then Some(Members(org))
    else if word == "billing" then Some(Billing(org))
    else if word == "docs" then Some(Docs(org))
    else if word == "settings" then Some(Settings(org))
    else None
  }

  /** The page of a project, by the word it prints. */
  function ProjectPageNamed(org: Text, project: Text, word: string): Option<Route> {
    if word == "domains" then Some(Domains(org, project))
    else if word == "security" then Some(Security(org, Some(project)))
    else if word == "setup" then Some(Setup(org, project))
    else if word == "git" then Some(Git(org, project))
    else if word == "env" then Some(Env(org, project))
    else if word == "logs" then Some(ProjectLogs(org, project))
    else if word == "analytics" then Some(ProjectAnalytics(org, project))
    else if word == "settings" then Some(ProjectSettings(org, project))
    else if word == "database" || word == "data" then Some(Database(org, project, None))
    else None
  }

  lemma IsNot(word: string, other: string)
    requires Plain(word) && word != other
    ensures !Is(Ascii(word), other)
  {
    AsciiIs(word);
    if Is(Ascii(word), other) { IsOne(Ascii(word), word, other); }
  }

  lemma OrganizationPageByName(org: Text, word: string)
    requires Plain(word)
    ensures WorkspacePage(org, Ascii(word)) == PageNamed(org, word)
  {
    AsciiIsOnly(word);
  }

  lemma ProjectPageByName(org: Text, project: Text, word: string)
    requires Plain(word)
    ensures ProjectPage(org, project, Ascii(word)) == ProjectPageNamed(org, project, word)
  {
    AsciiIsOnly(word);
  }

  lemma OrganizationPageReads(clean: Text, org: Text, word: string)
    requires Plain(word)
    ensures RouteOf(clean, TextsOf(InOrganization(org, [Word(word)])))
         == if word == "projects" then Projects(org)
            else OrElseRoute(PageNamed(org, word), WorkspaceCatchAll(clean, org, Ascii(word)))
  {
    TextsInOrganization(org, [Word(word)]);
    TextsOfOne(Word(word));
    RouteOfThree(clean, org, Ascii(word));
    OrganizationPageByName(org, word);
    AsciiIsOnly(word);
  }

  lemma ProjectPageReads(clean: Text, org: Text, project: Text, word: string)
    requires Plain(word)
    ensures RouteOf(clean, TextsOf(InProject(org, project, [Word(word)])))
         == if word == "deployments" then Deployments(org, project)
            else OrElseRoute(ProjectPageNamed(org, project, word), ProjectCatchAll(clean, org, project, Ascii(word)))
  {
    TextsInProject(org, project, [Word(word)]);
    TextsOfOne(Word(word));
    RouteOfFive(clean, org, project, Ascii(word));
    ProjectPageByName(org, project, word);
    AsciiIsOnly(word);
  }

  /** Printed and split, a route's pieces parse as the route. */
  predicate ReadsBack(clean: Text, r: Route) {
    RouteOf(clean, TextsOf(Pieces(r))) == r
  }

  lemma OrganizationPagesReadBack(clean: Text, r: Route)
    requires GoodRoute(r)
    requires r.Projects? || r.Audit? || r.Observability? || r.OrgDeployments? || r.Members?
    ensures ReadsBack(clean, r)
  {
    match r
    case Projects(org) => OrganizationPageReads(clean, org, "projects");
    case Audit(org) => OrganizationPageReads(clean, org, "audit");
    case Observability(org) => OrganizationPageReads(clean, org, "observability");
    case OrgDeployments(org) => OrganizationPageReads(clean, org, "deployments");
    case Members(org) => OrganizationPageReads(clean, org, "members");
  }

  lemma OtherOrganizationPagesReadBack(clean: Text, r: Route)
    requires GoodRoute(r)
    requires r.Security? || r.Billing? || r.Docs? || r.Settings?
    ensures ReadsBack(clean, r)
  {
    match r
    case Security(org, None) => OrganizationPageReads(clean, org, "security");
    case Security(org, Some(project)) => ProjectPageReads(clean, org, project, "security");
    case Billing(org) => OrganizationPageReads(clean, org, "billing");
    case Docs(org) => OrganizationPageReads(clean, org, "docs");
    case Settings(org) => OrganizationPageReads(clean, org, "settings");
  }

  lemma ProjectPagesReadBack(clean: Text, r: Route)
    requires GoodRoute(r)
    requires r.Deployments? || r.Domains? || r.Setup? || r.Git?
    ensures ReadsBack(clean, r)
  {
    match r
    case Deployments(org, project) => ProjectPageReads(clean, org, project, "deployments");
    case Domains(org, project) => ProjectPageReads(clean, org, project, "domains");
    case Setup(org, project) => ProjectPageReads(clean, org, project, "setup");
    case Git(org, project) => ProjectPageReads(clean, org, project, "git");
  }

  lemma OtherProjectPagesReadBack(clean: Text, r: Route)
    requires GoodRoute(r)
    requires r.Env? || r.ProjectLogs? || r.ProjectAnalytics? || r.ProjectSettings?
    ensures ReadsBack(clean, r)
  {
    match r
    case Env(org, project) => ProjectPageReads(clean, org, project, "env");
    case ProjectLogs(org, project) => ProjectPageReads(clean, org, project, "logs");
    case ProjectAnalytics(org, project) => ProjectPageReads(clean, org, project, "analytics");
    case ProjectSettings(org, project) => ProjectPageReads(clean, org, project, "settings");
  }

  lemma ShortRoutesReadBack(clean: Text, r: Route)
    requires GoodRoute(r)
    requires r.Organizations? || r.Organization? || r.Project?
    ensures ReadsBack(clean, r)
  {
    FixedWords();
    match r
    case Organizations => TextsOfOne(Word("orgs"));
    case Organization(org) => TextsInOrganization(org, []);
    case Project(org, project) =>
      TextsInProject(org, project, []);
      RouteOfFour(clean, org, PROJECTS, project);
  }

  lemma ApiKeysReads(clean: Text, org: Text, segment: Text, last: Text)
    requires Is(segment, "settings") && Is(last, "api-keys")
    ensures RouteOf(clean, [ORGS, org, segment, last]) == ApiKeys(org)
  {
    RouteOfFour(clean, org, segment, last);
    if Is(segment, "projects") { IsOne(segment, "settings", "projects"); }
  }

  lemma ApiKeysTexts(org: Text)
    ensures var s := TextsOf(Pieces(ApiKeys(org)));
            |s| == 4 && s[0] == ORGS && s[1] == org && Is(s[2], "settings") && Is(s[3], "api-keys")
  {
    var rest := [Word("settings"), Word("api-keys")];
    TextsInOrganization(org, rest);
    TextsOfTwo(rest[0], rest[1]);
    AsciiIs("settings");
    AsciiIs("api-keys");
  }

  lemma ApiKeysReadBack(clean: Text, org: Text)
    ensures ReadsBack(clean, ApiKeys(org))
  {
    ApiKeysTexts(org);
    var s := TextsOf(Pieces(ApiKeys(org)));
    assert s == [ORGS, org, s[2], s[3]];
    ApiKeysReads(clean, org, s[2], s[3]);
  }

  lemma DatabaseSectionReads(clean: Text, org: Text, project: Text, section: string)
    requires Listed(DATABASE_SECTIONS, section)
    ensures RouteOf(clean, [ORGS, org, PROJECTS, project, Ascii("database"), Ascii(section)])
            == Database(org, project, Some(section))
  {
    DatabaseSectionsPlain(section);
    LookupFinds(DATABASE_SECTIONS, section);
    AsciiIs("database");
    RouteOfSix(clean, org, project, Ascii("database"), Ascii(section));
  }

  lemma DatabaseTexts(org: Text, project: Text, section: string)
    requires section != ""
    ensures TextsOf(Pieces(Database(org, project, Some(section))))
         == [ORGS, org, PROJECTS, project, Ascii("database"), Ascii(section)]
  {
    var rest := [Word("database"), Value(Ascii(section))];
    assert [Word("database")] + Maybe(Some(section)) == rest;
    TextsInProject(org, project, rest);
    TextsOfTwo(rest[0], rest[1]);
  }

  lemma DatabaseReadsBack(clean: Text, org: Text, project: Text, section: string)
    requires Listed(DATABASE_SECTIONS, section) && section != ""
    ensures ReadsBack(clean, Database(org, project, Some(section)))
  {
    DatabaseTexts(org, project, section);
    DatabaseSectionReads(clean, org, project, section);
  }

  lemma DatabaseOverviewReadsBack(clean: Text, org: Text, project: Text)
    ensures ReadsBack(clean, Database(org, project, None))
  {
    assert [Word("database")] + Maybe(None) == [Word("database")];
    ProjectPageReads(clean, org, project, "database");
  }

  lemma SubPieces(section: string, sub: string)
    requires Listed(SubSections(section), sub)
    ensures Plain(sub) && Lookup(SubSections(section), Ascii(sub)) == Some(sub)
    ensures Maybe(Some(sub)) == [Value(Ascii(sub))]
  {
    SubSectionsPlain(section, sub);
    LookupFinds(SubSections(section), sub);
  }

  /** A workspace section is no page of the organization's own, and the table finds it. */
  ghost predicate OnlyWorkspaceSection(section: string) {
    && Plain(section) && section != "projects" && section != "settings"
    && (forall org :: WorkspacePage(org, Ascii(section)).None?)
    && Lookup(WORKSPACE_SECTIONS, Ascii(section)) == Some(section)
  }

  lemma WorkspaceSectionsAreOnly(section: string)
    requires Listed(WORKSPACE_SECTIONS, section)
    ensures OnlyWorkspaceSection(section)
  {
    var i := ListedAt(WORKSPACE_SECTIONS, section);
    WorkspaceSectionPlain(i);
    WorkspaceSectionApart(i);
    LookupFinds(WORKSPACE_SECTIONS, section);
    forall org ensures WorkspacePage(org, Ascii(section)).None? {
      OrganizationPageByName(org, section);
    }
  }

  lemma WorkspaceSectionReads(clean: Text, org: Text, section: string)
    requires OnlyWorkspaceSection(section)
    ensures RouteOf(clean, [ORGS, org, Ascii(section)]) == WorkspaceSection(org, section, None)
  {
    RouteOfThree(clean, org, Ascii(section));
    IsNot(section, "projects");
  }

  lemma WorkspaceSubReads(clean: Text, org: Text, section: string, sub: string)
    requires OnlyWorkspaceSection(section) && Lookup(SubSections(section), Ascii(sub)) == Some(sub)
    ensures RouteOf(clean, [ORGS, org, Ascii(section), Ascii(sub)]) == WorkspaceSection(org, section, Some(sub))
  {
    RouteOfFour(clean, org, Ascii(section), Ascii(sub));
    IsNot(section, "projects");
    IsNot(section, "settings");
  }

  lemma WorkspaceTexts(org: Text, section: string, sub: Option<string>)
    requires sub.Some? ==> sub.value != ""
    ensures TextsOf(Pieces(WorkspaceSection(org, section, sub)))
         == [ORGS, org, Ascii(section)] + if sub.Some? then [Ascii(sub.value)] else []
  {
    var piece := Value(Ascii(section));
    TextsInOrganization(org, [piece] + Maybe(sub));
    if sub.Some? {
      assert [piece] + Maybe(sub) == [piece, Value(Ascii(sub.value))];
      TextsOfTwo(piece, Value(Ascii(sub.value)));
    } else {
      assert [piece] + Maybe(sub) == [piece];
      TextsOfOne(piece);
    }
  }

  lemma WorkspaceSectionReadsBack(clean: Text, org: Text, section: string, sub: Option<string>)
    requires Listed(WORKSPACE_SECTIONS, section) && GoodSub(section, sub)
    ensures ReadsBack(clean, WorkspaceSection(org, section, sub))
  {
    WorkspaceSectionsAreOnly(section);
    match sub
    case None =>
      WorkspaceSectionReads(clean, org, section);
      WorkspaceTexts(org, section, sub);
      assert [ORGS, org, Ascii(section)] + [] == [ORGS, org, Ascii(section)];
    case Some(item) =>
      SubPieces(section, item);
      WorkspaceSubReads(clean, org, section, item);
      WorkspaceTexts(org, section, sub);
      assert [ORGS, org, Ascii(section)] + [Ascii(item)] == [ORGS, org, Ascii(section), Ascii(item)];
  }

  ghost predicate OnlyProjectSection(section: string) {
    && Plain(section) && section != "deployments" && section != "database"
    && (forall org, project :: ProjectPage(org, project, Ascii(section)).None?)
    && Lookup(PROJECT_SECTIONS, Ascii(section)) == Some(section)
  }

  lemma ProjectSectionsAreOnly(section: string)
    requires Listed(PROJECT_SECTIONS, section)
    ensures OnlyProjectSection(section)
  {
    var i := ListedAt(PROJECT_SECTIONS, section);
    ProjectSectionPlain(i);
    ProjectSectionApart(i);
    LookupFinds(PROJECT_SECTIONS, section);
    forall org, project ensures ProjectPage(org, project, Ascii(section)).None? {
      ProjectPageByName(org, project, section);
    }
  }

  lemma ProjectSectionReads(clean: Text, org: Text, project: Text, section: string)
    requires OnlyProjectSection(section)
    ensures RouteOf(clean, [ORGS, org, PROJECTS, project, Ascii(section)])
            == ProjectSection(org, project, section, None)
  {
    RouteOfFive(clean, org, project, Ascii(section));
    IsNot(section, "deployments");
  }

  lemma ProjectSubReads(clean: Text, org: Text, project: Text, section: string, sub: string)
    requires OnlyProjectSection(section) && Lookup(SubSections(section), Ascii(sub)) == Some(sub)
    ensures RouteOf(clean, [ORGS, org, PROJECTS, project, Ascii(section), Ascii(sub)])
            == ProjectSection(org, project, section, Some(sub))
  {
    RouteOfSix(clean, org, project, Ascii(section), Ascii(sub));
    IsNot(section, "database");
  }

  lemma ProjectTexts(org: Text, project: Text, section: string, sub: Option<string>)
    requires sub.Some? ==> sub.value != ""
    ensures TextsOf(Pieces(ProjectSection(org, project, section, sub)))
         == [ORGS, org, PROJECTS, project, Ascii(section)] + if sub.Some? then [Ascii(sub.value)] else []
  {
    var piece := Value(Ascii(section));
    TextsInProject(org, project, [piece] + Maybe(sub));
    if sub.Some? {
      assert [piece] + Maybe(sub) == [piece, Value(Ascii(sub.value))];
      TextsOfTwo(piece, Value(Ascii(sub.value)));
    } else {
      assert [piece] + Maybe(sub) == [piece];
      TextsOfOne(piece);
    }
  }

  lemma ProjectSectionReadsBack(clean: Text, org: Text, project: Text, section: string, sub: Option<string>)
    requires Listed(PROJECT_SECTIONS, section) && GoodSub(section, sub)
    ensures ReadsBack(clean, ProjectSection(org, project, section, sub))
  {
    ProjectSectionsAreOnly(section);
    match sub
    case None =>
      ProjectSectionReads(clean, org, project, section);
      ProjectTexts(org, project, section, sub);
      assert [ORGS, org, PROJECTS, project, Ascii(section)] + [] == [ORGS, org, PROJECTS, project, Ascii(section)];
    case Some(item) =>
      SubPieces(section, item);
      ProjectSubReads(clean, org, project, section, item);
      ProjectTexts(org, project, section, sub);
      assert [ORGS, org, PROJECTS, project, Ascii(section)] + [Ascii(item)]
        == [ORGS, org, PROJECTS, project, Ascii(section), Ascii(item)];
  }
}
