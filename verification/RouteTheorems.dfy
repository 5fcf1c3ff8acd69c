/** Printing and parsing undo each other, exactly where they can. */
module RouteTheorems {
  import opened Contracts
  import opened UriText
  import opened UrlPaths
  import opened WebRoutes
  import opened RouteRoundTrips

  /** The routes printed from pieces. */
  predicate Composed(r: Route) {
    !r.Landing? && !r.AuthCallback? && !r.NotFound?
  }

  lemma GoodReadsBack(clean: Text, r: Route)
    requires GoodRoute(r) && Composed(r)
    ensures ReadsBack(clean, r)
  {
    match r
    case Organizations => ShortRoutesReadBack(clean, r);
    case Organization(_) => ShortRoutesReadBack(clean, r);
    case Project(_, _) => ShortRoutesReadBack(clean, r);
    case ApiKeys(org) => ApiKeysReadBack(clean, org);
    case Database(org, project, section) =>
      if section.Some? {
        DatabaseSectionsPlain(section.value);
        DatabaseReadsBack(clean, org, project, section.value);
      } else {
        DatabaseOverviewReadsBack(clean, org, project);
      }
    case WorkspaceSection(org, section, sub) => WorkspaceSectionReadsBack(clean, org, section, sub);
    case ProjectSection(org, project, section, sub) => ProjectSectionReadsBack(clean, org, project, section, sub);
    case _ => OneWordPagesReadBack(clean, r);
  }

  lemma OneWordPagesReadBack(clean: Text, r: Route)
    requires GoodRoute(r) && Composed(r)
    requires !r.Organizations? && !r.Organization? && !r.Project? && !r.ApiKeys? && !r.Database? && !r.WorkspaceSection?
    requires !r.ProjectSection?
    ensures ReadsBack(clean, r)
  {
    if r.Security? || r.Billing? || r.Docs? || r.Settings? {
      OtherOrganizationPagesReadBack(clean, r);
    } else if r.Projects? || r.Audit? || r.Observability? || r.OrgDeployments? || r.Members? {
      OrganizationPagesReadBack(clean, r);
    } else if r.Deployments? || r.Domains? || r.Setup? || r.Git? {
      ProjectPagesReadBack(clean, r);
    } else {
      OtherProjectPagesReadBack(clean, r);
    }
  }

  predicate GoodPieces(pieces: seq<Piece>) {
    forall i :: 0 <= i < |pieces| ==> GoodPiece(pieces[i])
  }

  lemma GoodInOrganization(org: Text, rest: seq<Piece>)
    requires GoodId(org) && GoodPieces(rest)
    ensures GoodPieces(InOrganization(org, rest)) && InOrganization(org, rest)[0] == Word("orgs")
  {
    FixedWords();
  }

  lemma GoodInProject(org: Text, project: Text, rest: seq<Piece>)
    requires GoodId(org) && GoodId(project) && GoodPieces(rest)
    ensures GoodPieces(InProject(org, project, rest)) && InProject(org, project, rest)[0] == Word("orgs")
  {
    FixedWords();
  }

  lemma GoodValue(word: string)
    requires Plain(word)
    ensures GoodPiece(Value(Ascii(word)))
  {
    AsciiIs(word);
  }

  lemma GoodSectionPieces(section: string, sub: Option<string>)
    requires Plain(section) && GoodSub(section, sub)
    ensures GoodPieces([Value(Ascii(section))] + Maybe(sub))
  {
    GoodValue(section);
    if sub.Some? {
      SubSectionsPlain(section, sub.value);
      GoodValue(sub.value);
    }
  }

  lemma GoodOrganizationPieces(r: Route)
    requires GoodRoute(r)
    requires r.Organization? || r.Projects? || r.Audit? || r.Observability? || r.Billing?
    ensures Pieces(r) != [] && GoodPieces(Pieces(r)) && Pieces(r)[0] == Word("orgs")
  {
    GoodInOrganization(r.organizationId, Pieces(r)[2..]);
    assert Pieces(r) == InOrganization(r.organizationId, Pieces(r)[2..]);
  }

  lemma GoodOtherOrganizationPieces(r: Route)
    requires GoodRoute(r)
    requires r.OrgDeployments? || r.Members? || r.Settings? || r.Docs?
    ensures Pieces(r) != [] && GoodPieces(Pieces(r)) && Pieces(r)[0] == Word("orgs")
  {
    GoodInOrganization(r.organizationId, Pieces(r)[2..]);
    assert Pieces(r) == InOrganization(r.organizationId, Pieces(r)[2..]);
  }

  lemma GoodProjectPieces(r: Route)
    requires GoodRoute(r)
    requires r.Project? || r.Deployments? || r.Domains? || r.Setup? || r.Git? || r.Env? || r.ProjectLogs?
             || r.ProjectAnalytics? || r.ProjectSettings?
    ensures Pieces(r) != [] && GoodPieces(Pieces(r)) && Pieces(r)[0] == Word("orgs")
  {
    GoodInProject(r.organizationId, r.projectId, Pieces(r)[4..]);
    assert Pieces(r) == InProject(r.organizationId, r.projectId, Pieces(r)[4..]);
  }

  lemma GoodOtherPieces(r: Route)
    requires GoodRoute(r)
    requires r.Security? || r.ApiKeys? || r.Database? || r.Organizations?
    ensures Pieces(r) != [] && GoodPieces(Pieces(r)) && Pieces(r)[0] == Word("orgs")
  {
    FixedWords();
    match r
    case Organizations =>
    case Security(org, None) => GoodInOrganization(org, [Word("security")]);
    case Security(org, Some(project)) => GoodInProject(org, project, [Word("security")]);
    case ApiKeys(org) => GoodInOrganization(org, [Word("settings"), Word("api-keys")]);
    case Database(org, project, section) =>
      if section.Some? {
        DatabaseSectionsPlain(section.value);
        GoodValue(section.value);
      }
      GoodInProject(org, project, [Word("database")] + Maybe(section));
  }

  lemma GoodWorkspaceSectionPieces(org: Text, section: string, sub: Option<string>)
    requires GoodId(org) && Listed(WORKSPACE_SECTIONS, section) && GoodSub(section, sub)
    ensures var pieces := Pieces(WorkspaceSection(org, section, sub));
            pieces != [] && GoodPieces(pieces) && pieces[0] == Word("orgs")
  {
    var i := ListedAt(WORKSPACE_SECTIONS, section);
    WorkspaceSectionPlain(i);
    GoodSectionPieces(section, sub);
    GoodInOrganization(org, [Value(Ascii(section))] + Maybe(sub));
  }

  lemma GoodProjectSectionPieces(org: Text, project: Text, section: string, sub: Option<string>)
    requires GoodId(org) && GoodId(project) && Listed(PROJECT_SECTIONS, section) && GoodSub(section, sub)
    ensures var pieces := Pieces(ProjectSection(org, project, section, sub));
            pieces != [] && GoodPieces(pieces) && pieces[0] == Word("orgs")
  {
    var i := ListedAt(PROJECT_SECTIONS, section);
    ProjectSectionPlain(i);
    GoodSectionPieces(section, sub);
    GoodInProject(org, project, [Value(Ascii(section))] + Maybe(sub));
  }

  lemma GoodRoutePieces(r: Route)
    requires GoodRoute(r) && Composed(r)
    ensures Pieces(r) != [] && GoodPieces(Pieces(r)) && Pieces(r)[0] == Word("orgs")
  {
    if r.WorkspaceSection? {
      GoodWorkspaceSectionPieces(r.organizationId, r.workspaceSection, r.sub);
    } else if r.ProjectSection? {
      GoodProjectSectionPieces(r.organizationId, r.projectId, r.projectSection, r.sub);
    } else if r.Security? || r.ApiKeys? || r.Database? || r.Organizations? {
      GoodOtherPieces(r);
    } else if r.Organization? || r.Projects? || r.Audit? || r.Observability? || r.Billing? {
      GoodOrganizationPieces(r);
    } else if r.OrgDeployments? || r.Members? || r.Settings? || r.Docs? {
      GoodOtherOrganizationPieces(r);
    } else {
      GoodProjectPieces(r);
    }
  }

  // ---------------------------------------------------------------- what parsing yields

  lemma WordWellFormed(segment: Text, word: string)
    requires Is(segment, word) && Plain(word)
    ensures WellFormed(segment) && segment == Ascii(word)
  {
    AsciiPrefix(segment, |segment|);
  }

  /** A parsed route is good exactly when its components hold no lone surrogate. */
  predicate Faithful(r: Route, segments: seq<Text>) {
    r.NotFound? || (Composed(r) && (GoodRoute(r) <==> AllWellFormed(segments)))
  }

  lemma PageWordWellFormed(segment: Text)
    requires Is(segment, "audit") || Is(segment, "observability") || Is(segment, "security")
             || Is(segment, "deployments")
    ensures WellFormed(segment)
  {
    if Is(segment, "audit") {
      WordWellFormed(segment, "audit");
    } else if Is(segment, "observability") {
      WordWellFormed(segment, "observability");
    } else if Is(segment, "security") {
      WordWellFormed(segment, "security");
    } else if Is(segment, "deployments") {
      WordWellFormed(segment, "deployments");
    }
  }

  lemma LaterPageWordWellFormed(segment: Text)
    requires Is(segment, "members") || Is(segment, "billing") || Is(segment, "docs") || Is(segment, "settings")
    ensures WellFormed(segment)
  {
    if Is(segment, "members") {
      WordWellFormed(segment, "members");
    } else if Is(segment, "billing") {
      WordWellFormed(segment, "billing");
    } else if Is(segment, "docs") {
      WordWellFormed(segment, "docs");
    } else if Is(segment, "settings") {
      WordWellFormed(segment, "settings");
    }
  }

  lemma ProjectPageWordWellFormed(segment: Text)
    requires Is(segment, "domains") || Is(segment, "security") || Is(segment, "setup") || Is(segment, "git")
             || Is(segment, "env")
    ensures WellFormed(segment)
  {
    if Is(segment, "domains") {
      WordWellFormed(segment, "domains");
    } else if Is(segment, "security") {
      WordWellFormed(segment, "security");
    } else if Is(segment, "setup") {
      WordWellFormed(segment, "setup");
    } else if Is(segment, "git") {
      WordWellFormed(segment, "git");
    } else if Is(segment, "env") {
      WordWellFormed(segment, "env");
    }
  }

  lemma LaterProjectPageWordWellFormed(segment: Text)
    requires Is(segment, "logs") || Is(segment, "analytics") || Is(segment, "settings") || Is(segment, "database")
             || Is(segment, "data")
    ensures WellFormed(segment)
  {
    if Is(segment, "logs") {
      WordWellFormed(segment, "logs");
    } else if Is(segment, "analytics") {
      WordWellFormed(segment, "analytics");
    } else if Is(segment, "settings") {
      WordWellFormed(segment, "settings");
    } else if Is(segment, "database") {
      WordWellFormed(segment, "database");
    } else if Is(segment, "data") {
      WordWellFormed(segment, "data");
    }
  }

  lemma OrganizationPageFaithful(org: Text, segment: Text)
    requires org != [] && WorkspacePage(org, segment).Some?
    ensures WellFormed(segment) && Composed(WorkspacePage(org, segment).value)
    ensures GoodRoute(WorkspacePage(org, segment).value) <==> WellFormed(org)
  {
    if Is(segment, "audit") || Is(segment, "observability") || Is(segment, "security") || Is(segment, "deployments") {
      PageWordWellFormed(segment);
    } else {
      LaterPageWordWellFormed(segment);
    }
  }

  lemma ProjectPageFaithful(org: Text, project: Text, segment: Text)
    requires org != [] && project != [] && ProjectPage(org, project, segment).Some?
    ensures WellFormed(segment) && Composed(ProjectPage(org, project, segment).value)
    ensures GoodRoute(ProjectPage(org, project, segment).value) <==> WellFormed(org) && WellFormed(project)
  {
    if Is(segment, "domains") || Is(segment, "security") || Is(segment, "setup") || Is(segment, "git")
      || Is(segment, "env") {
      ProjectPageWordWellFormed(segment);
    } else {
      LaterProjectPageWordWellFormed(segment);
    }
  }

  lemma WorkspaceLookupPlain(segment: Text)
    requires Lookup(WORKSPACE_SECTIONS, segment).Some?
    ensures WellFormed(segment)
  {
    var section := Lookup(WORKSPACE_SECTIONS, segment).value;
    var i := ListedAt(WORKSPACE_SECTIONS, section);
    WorkspaceSectionPlain(i);
    WordWellFormed(segment, section);
  }

  lemma ProjectLookupPlain(segment: Text)
    requires Lookup(PROJECT_SECTIONS, segment).Some?
    ensures WellFormed(segment)
  {
    var section := Lookup(PROJECT_SECTIONS, segment).value;
    var i := ListedAt(PROJECT_SECTIONS, section);
    ProjectSectionPlain(i);
    WordWellFormed(segment, section);
  }

  lemma SubLookupPlain(section: string, segment: Text)
    requires Lookup(SubSections(section), segment).Some?
    ensures WellFormed(segment)
  {
    var sub := Lookup(SubSections(section), segment).value;
    SubSectionsPlain(section, sub);
    WordWellFormed(segment, sub);
  }

  lemma DatabaseLookupPlain(segment: Text)
    requires Lookup(DATABASE_SECTIONS, segment).Some?
    ensures WellFormed(segment)
  {
    var section := Lookup(DATABASE_SECTIONS, segment).value;
    DatabaseSectionsPlain(section);
    WordWellFormed(segment, section);
  }

  lemma AllOfThree(a: Text, b: Text, c: Text)
    ensures AllWellFormed([a, b, c]) <==> WellFormed(a) && WellFormed(b) && WellFormed(c)
  {
    var all := [a, b, c];
    assert all[0] == a && all[1] == b && all[2] == c;
  }

  lemma AllOfFour(a: Text, b: Text, c: Text, d: Text)
    ensures AllWellFormed([a, b, c, d]) <==> AllWellFormed([a, b, c]) && WellFormed(d)
  {
    AllOfThree(a, b, c);
    var all := [a, b, c, d];
    assert all[0] == a && all[1] == b && all[2] == c && all[3] == d;
  }

  lemma AllOfFive(a: Text, b: Text, c: Text, d: Text, e: Text)
    ensures AllWellFormed([a, b, c, d, e]) <==> AllWellFormed([a, b, c, d]) && WellFormed(e)
  {
    var front, all := [a, b, c, d], [a, b, c, d, e];
    assert forall i :: 0 <= i < 4 ==> all[i] == front[i];
    assert all[4] == e;
  }

  lemma AllOfSix(a: Text, b: Text, c: Text, d: Text, e: Text, f: Text)
    ensures AllWellFormed([a, b, c, d, e, f]) <==> AllWellFormed([a, b, c, d, e]) && WellFormed(f)
  {
    var front, all := [a, b, c, d, e], [a, b, c, d, e, f];
    assert forall i :: 0 <= i < 5 ==> all[i] == front[i];
    assert all[5] == f;
  }

  lemma FixedWordsWellFormed()
    ensures WellFormed(ORGS) && WellFormed(PROJECTS)
  {
    AsciiIs("orgs");
    AsciiIs("projects");
  }

  lemma WorkspaceSectionGood(org: Text, section: string, sub: Option<string>)
    requires org != [] && Listed(WORKSPACE_SECTIONS, section) && GoodSub(section, sub)
    ensures GoodRoute(WorkspaceSection(org, section, sub)) <==> WellFormed(org)
  {
  }

  lemma ProjectSectionGood(org: Text, project: Text, section: string, sub: Option<string>)
    requires org != [] && project != [] && Listed(PROJECT_SECTIONS, section) && GoodSub(section, sub)
    ensures GoodRoute(ProjectSection(org, project, section, sub)) <==> WellFormed(org) && WellFormed(project)
  {
  }

  lemma WorkspaceCatchAllFaithful(clean: Text, org: Text, segment: Text)
    requires org != []
    ensures var r := WorkspaceCatchAll(clean, org, segment);
            r.NotFound? || (Composed(r) && (GoodRoute(r) <==> WellFormed(org)) && WellFormed(segment))
  {
    var section := Lookup(WORKSPACE_SECTIONS, segment);
    if section.Some? {
      WorkspaceLookupPlain(segment);
      WorkspaceSectionGood(org, section.value, None);
    }
  }

  lemma ProjectCatchAllFaithful(clean: Text, org: Text, project: Text, segment: Text)
    requires org != [] && project != []
    ensures var r := ProjectCatchAll(clean, org, project, segment);
            || r.NotFound?
            || (Composed(r) && (GoodRoute(r) <==> WellFormed(org) && WellFormed(project)) && WellFormed(segment))
  {
    var section := Lookup(PROJECT_SECTIONS, segment);
    if section.Some? {
      ProjectLookupPlain(segment);
      ProjectSectionGood(org, project, section.value, None);
    }
  }

  lemma DatabaseGood(org: Text, project: Text, section: string)
    requires org != [] && project != [] && Listed(DATABASE_SECTIONS, section)
    ensures GoodRoute(Database(org, project, Some(section))) <==> WellFormed(org) && WellFormed(project)
  {
  }

  lemma ThreeFaithful(clean: Text, org: Text, segment: Text)
    requires org != []
    ensures Faithful(RouteOf(clean, [ORGS, org, segment]), [ORGS, org, segment])
  {
    FixedWordsWellFormed();
    AllOfThree(ORGS, org, segment);
    RouteOfThree(clean, org, segment);
    if Is(segment, "projects") {
      FixedWords();
      WordWellFormed(segment, "projects");
    } else if WorkspacePage(org, segment).Some? {
      OrganizationPageFaithful(org, segment);
    } else {
      WorkspaceCatchAllFaithful(clean, org, segment);
    }
  }

  lemma FourFaithful(clean: Text, org: Text, segment: Text, last: Text)
    requires org != [] && last != []
    ensures Faithful(RouteOf(clean, [ORGS, org, segment, last]), [ORGS, org, segment, last])
  {
    FixedWordsWellFormed();
    AllOfThree(ORGS, org, segment);
    AllOfFour(ORGS, org, segment, last);
    RouteOfFour(clean, org, segment, last);
    if Is(segment, "projects") {
      FixedWords();
      WordWellFormed(segment, "projects");
    } else if Is(segment, "settings") && Is(last, "api-keys") {
      WordWellFormed(segment, "settings");
      WordWellFormed(last, "api-keys");
    } else {
      WorkspaceSubFaithful(clean, org, segment, last);
    }
  }

  lemma WorkspaceSubFaithful(clean: Text, org: Text, segment: Text, last: Text)
    requires org != []
    ensures var r := WorkspaceSubPage(clean, org, segment, last);
            || r.NotFound?
            || (Composed(r) && (GoodRoute(r) <==> WellFormed(org)) && WellFormed(segment) && WellFormed(last))
  {
    var section := Lookup(WORKSPACE_SECTIONS, segment);
    if section.Some? {
      var sub := Lookup(SubSections(section.value), last);
      if sub.Some? {
        WorkspaceLookupPlain(segment);
        SubLookupPlain(section.value, last);
        WorkspaceSectionGood(org, section.value, sub);
      }
    }
  }

  lemma InProjectWellFormed(org: Text, project: Text, segment: Text)
    ensures AllWellFormed([ORGS, org, PROJECTS, project, segment]) <==>
              WellFormed(org) && WellFormed(project) && WellFormed(segment)
  {
    FixedWordsWellFormed();
    AllOfThree(ORGS, org, PROJECTS);
    AllOfFour(ORGS, org, PROJECTS, project);
    AllOfFive(ORGS, org, PROJECTS, project, segment);
  }

  /** The page a project's single word leads to, generic pages included. */
  function ProjectWordPage(clean: Text, org: Text, project: Text, segment: Text): Route {
    if Is(segment, "deployments") then Deployments(org, project)
    else OrElseRoute(ProjectPage(org, project, segment), ProjectCatchAll(clean, org, project, segment))
  }

  lemma ProjectWordFaithful(clean: Text, org: Text, project: Text, segment: Text)
    requires org != [] && project != []
    ensures var r := ProjectWordPage(clean, org, project, segment);
            || r.NotFound?
            || (Composed(r) && (GoodRoute(r) <==> WellFormed(org) && WellFormed(project)) && WellFormed(segment))
  {
    if Is(segment, "deployments") {
      WordWellFormed(segment, "deployments");
    } else if ProjectPage(org, project, segment).Some? {
      ProjectPageFaithful(org, project, segment);
    } else {
      ProjectCatchAllFaithful(clean, org, project, segment);
    }
  }

  lemma FiveFaithful(clean: Text, org: Text, project: Text, segment: Text)
    requires org != [] && project != []
    ensures Faithful(RouteOf(clean, [ORGS, org, PROJECTS, project, segment]), [ORGS, org, PROJECTS, project, segment])
  {
    InProjectWellFormed(org, project, segment);
    RouteOfFive(clean, org, project, segment);
    ProjectWordFaithful(clean, org, project, segment);
    assert RouteOf(clean, [ORGS, org, PROJECTS, project, segment]) == ProjectWordPage(clean, org, project, segment);
  }

  lemma DatabasePageFaithful(clean: Text, org: Text, project: Text, last: Text)
    requires org != [] && project != []
    ensures var r := DatabasePage(clean, org, project, Lookup(DATABASE_SECTIONS, last));
            || r.NotFound?
            || (Composed(r) && (GoodRoute(r) <==> WellFormed(org) && WellFormed(project)) && WellFormed(last))
  {
    var section := Lookup(DATABASE_SECTIONS, last);
    if section.Some? {
      DatabaseLookupPlain(last);
      DatabaseGood(org, project, section.value);
    }
  }

  lemma SixFaithful(clean: Text, org: Text, project: Text, segment: Text, last: Text)
    requires org != [] && project != []
    ensures Faithful(RouteOf(clean, [ORGS, org, PROJECTS, project, segment, last]),
                     [ORGS, org, PROJECTS, project, segment, last])
  {
    InProjectWellFormed(org, project, segment);
    AllOfSix(ORGS, org, PROJECTS, project, segment, last);
    RouteOfSix(clean, org, project, segment, last);
    if Is(segment, "database") {
      WordWellFormed(segment, "database");
      DatabasePageFaithful(clean, org, project, last);
    } else {
      ProjectSubFaithful(clean, org, project, segment, last);
    }
  }

  lemma ProjectSubFaithful(clean: Text, org: Text, project: Text, segment: Text, last: Text)
    requires org != [] && project != []
    ensures var r := ProjectSubPage(clean, org, project, segment, last);
            || r.NotFound?
            || (Composed(r) && (GoodRoute(r) <==> WellFormed(org) && WellFormed(project))
                && WellFormed(segment) && WellFormed(last))
  {
    var section := Lookup(PROJECT_SECTIONS, segment);
    if section.Some? {
      var sub := Lookup(SubSections(section.value), last);
      if sub.Some? {
        ProjectLookupPlain(segment);
        SubLookupPlain(section.value, last);
        ProjectSectionGood(org, project, section.value, sub);
      }
    }
  }

  /** Whatever the number of components, parsing is faithful to them. */
  lemma RouteOfFaithful(clean: Text, s: seq<Text>)
    requires forall i :: 0 <= i < |s| ==> s[i] != []
    ensures Faithful(RouteOf(clean, s), s)
  {
    if At(s, 0, "orgs") {
      FixedWords();
      WordWellFormed(s[0], "orgs");
      if |s| == 1 {
        assert s == [ORGS];
      } else if |s| == 2 {
        TwoFaithful(clean, s[1]);
        assert s == [ORGS, s[1]];
      } else if |s| == 3 {
        ThreeFaithful(clean, s[1], s[2]);
        assert s == [ORGS, s[1], s[2]];
      } else if |s| == 4 {
        FourFaithful(clean, s[1], s[2], s[3]);
        assert s == [ORGS, s[1], s[2], s[3]];
      } else {
        LongFaithful(clean, s);
      }
    }
  }

  lemma TwoFaithful(clean: Text, org: Text)
    requires org != []
    ensures Faithful(RouteOf(clean, [ORGS, org]), [ORGS, org])
  {
    FixedWords();
    FixedWordsWellFormed();
    var s := [ORGS, org];
    assert AllWellFormed(s) <==> WellFormed(org) by {
      assert s[0] == ORGS && s[1] == org;
    }
  }

  lemma LongFaithful(clean: Text, s: seq<Text>)
    requires |s| >= 5 && s[0] == ORGS && forall i :: 0 <= i < |s| ==> s[i] != []
    ensures Faithful(RouteOf(clean, s), s)
  {
    if Is(s[2], "projects") {
      FixedWords();
      WordWellFormed(s[2], "projects");
      if |s| == 5 {
        FiveFaithful(clean, s[1], s[3], s[4]);
        assert s == [ORGS, s[1], PROJECTS, s[3], s[4]];
      } else if |s| == 6 {
        SixFaithful(clean, s[1], s[3], s[4], s[5]);
        assert s == [ORGS, s[1], PROJECTS, s[3], s[4], s[5]];
      }
    }
  }

  // ---------------------------------------------------------------- the theorems

  /** Parsing a printed route gives the route back: every good route, whatever its ids. */
  lemma ParseToPath(r: Route)
    requires GoodRoute(r)
    ensures ToPath(r).Some? && ParseRoute(ToPath(r).value) == Some(r)
  {
    if Composed(r) {
      GoodRoutePieces(r);
      ComponentsPrinted(Pieces(r));
      GoodReadsBack(ToPath(r).value, r);
    } else {
      FixedPagesParse();
    }
  }

  lemma FixedPagesParse()
    ensures ParseRoute([SLASH]) == Some(Landing)
    ensures ParseRoute(Ascii("/auth/callback")) == Some(AuthCallback)
  {
    assert [SLASH][..0] == [];
    assert Stripped([SLASH]) == Stripped([]);
    CallbackIsClean();
  }

  lemma CallbackIsClean()
    ensures var path := Ascii("/auth/callback"); Clean(path) == path && path != [SLASH] && Is(path, "/auth/callback")
  {
    var path := Ascii("/auth/callback");
    assert path[13] == 'k' as int;
    assert Stripped(path) == path;
  }

  /** So no two good routes print the same path. */
  lemma ToPathIsInjective(r: Route, s: Route)
    requires GoodRoute(r) && GoodRoute(s) && ToPath(r) == ToPath(s)
    ensures r == s
  {
    ParseToPath(r);
    ParseToPath(s);
  }

  lemma {:induction false} EncodedAscii(s: Text)
    requires Encode(s).Some?
    ensures AsciiOnly(Encode(s).value)
  {
    EncodeCoded(s);
  }

  lemma {:induction false} PrintedAscii(pieces: seq<Piece>)
    requires PrintAll(pieces).Some?
    ensures AsciiOnly(Joined(PrintAll(pieces).value))
  {
    if |pieces| > 0 {
      PrintedAscii(pieces[1..]);
      if pieces[0].Value? { EncodedAscii(pieces[0].text); }
      assert PrintAll(pieces).value[1..] == PrintAll(pieces[1..]).value;
    }
  }

  lemma SlashesAreWellFormed(path: Text)
    requires Clean(path) == [SLASH]
    ensures WellFormed(path)
  {
    StrippedWellFormed(path);
    assert Stripped(path) == [];
  }

  /** A path that names neither fixed page parses as the route of its components. */
  lemma ParsedFromComponents(path: Text)
    requires ParseRoute(path).Some? && Clean(path) != [SLASH] && !Is(Clean(path), "/auth/callback")
    ensures Components(Clean(path)).Some?
    ensures ParseRoute(path).value == RouteOf(Clean(path), Components(Clean(path)).value)
  {
  }

  lemma CallbackIsWellFormed(path: Text)
    requires Is(Clean(path), "/auth/callback")
    ensures WellFormed(path)
  {
    var clean := Clean(path);
    assert AsciiOnly(clean);
    AsciiPrefix(clean, |clean|);
    StrippedWellFormed(path);
  }

  /**
   What parsing yields from any path: nothing found, or a route that is good exactly when
   the path holds no lone surrogate.
   */
  lemma ParsedIsGood(path: Text)
    requires ParseRoute(path).Some? && !ParseRoute(path).value.NotFound?
    ensures GoodRoute(ParseRoute(path).value) <==> WellFormed(path)
  {
    var clean := Clean(path);
    if clean == [SLASH] {
      SlashesAreWellFormed(path);
    } else if Is(clean, "/auth/callback") {
      CallbackIsWellFormed(path);
    } else {
      ParsedFromComponents(path);
      ComponentsWellFormed(path);
      RouteOfFaithful(clean, Components(clean).value);
    }
  }

  /** A route other than a missing one survives printing and parsing exactly when it is good. */
  lemma RoundTripsExactlyWhenGood(r: Route)
    requires !r.NotFound?
    ensures ToPath(r).Some? && ParseRoute(ToPath(r).value) == Some(r) <==> GoodRoute(r)
  {
    if GoodRoute(r) {
      ParseToPath(r);
    } else if ToPath(r).Some? && ParseRoute(ToPath(r).value) == Some(r) {
      var path := ToPath(r).value;
      PrintedAscii(Pieces(r));
      AsciiPrefix(path, |path|);
      ParsedIsGood(path);
    }
  }

  /**
   Parsing is canonicalising: printing what a path parsed to and parsing it again
   changes nothing, aliases, trailing slashes and missing pages included. A path
   with a lone surrogate in an id is the one that cannot be printed again.
   */
  lemma ParsingCanonicalises(path: Text)
    requires ParseRoute(path).Some?
    ensures var r := ParseRoute(path).value;
            ToPath(r).Some? && ParseRoute(ToPath(r).value) == Some(r) <==> r.NotFound? || WellFormed(path)
  {
    var r := ParseRoute(path).value;
    if r.NotFound? {
      CleanTwice(path);
      NotFoundKeepsThePath(path);
    } else {
      ParsedIsGood(path);
      RoundTripsExactlyWhenGood(r);
    }
  }

  lemma NotFoundKeepsThePath(path: Text)
    requires ParseRoute(path).Some? && ParseRoute(path).value.NotFound?
    ensures ParseRoute(path).value == NotFound(Clean(path))
  {
  }

  const LONE: Text := [0xD800]

  lemma LoneDecodes()
    ensures Components(Joined([ORGS, LONE])) == Some([ORGS, LONE])
    ensures Clean(Joined([ORGS, LONE])) == Joined([ORGS, LONE])
    ensures |Joined([ORGS, LONE])| >= 2 && Joined([ORGS, LONE])[1] == 'o' as int
  {
    var pieces := [ORGS, LONE];
    AsciiIs("orgs");
    ComponentsJoined(pieces);
    JoinedEnd(pieces);
    DecodePlainText(ORGS);
    DecodePlainText(LONE);
    DecodeAllOne(LONE, LONE);
    assert pieces[1..] == [LONE];
    assert [ORGS] + [LONE] == pieces;
  }

  lemma DecodeAllOne(piece: Text, decoded: Text)
    requires Decode(piece) == Some(decoded)
    ensures DecodeAll([piece]) == Some([decoded])
  {
    assert [piece][1..] == [];
    assert [decoded] + [] == [decoded];
  }

  /** A lone surrogate can reach a route through a path, and such a route cannot be printed. */
  lemma LoneSurrogateDoesNotPrint()
    ensures ParseRoute(Joined([ORGS, LONE])) == Some(Organization(LONE))
    ensures ToPath(Organization(LONE)).None?
  {
    LoneDecodes();
    FixedWords();
    NotTheCallback(Joined([ORGS, LONE]));
    EncodesExactlyWellFormed(LONE);
    assert Pieces(Organization(LONE))[1..] == [Value(LONE)];
  }
}
