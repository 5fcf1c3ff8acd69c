/** The dashboard's URLs: the route a path names, and the path a route prints. */
module WebRoutes {
  import opened Contracts
  import opened UriText
  import opened UrlPaths

  datatype Route =
    | Landing
    | AuthCallback
    | Organizations
    | Organization(organizationId: Text)
    | Projects(organizationId: Text)
    | Project(organizationId: Text, projectId: Text)
    | Deployments(organizationId: Text, projectId: Text)
    | Domains(organizationId: Text, projectId: Text)
    | Database(organizationId: Text, projectId: Text, section: Option<string>)
    | Security(organizationId: Text, shortcut: Option<Text>)
    | Setup(organizationId: Text, projectId: Text)
    | Git(organizationId: Text, projectId: Text)
    | Env(organizationId: Text, projectId: Text)
    | ProjectLogs(organizationId: Text, projectId: Text)
    | ProjectAnalytics(organizationId: Text, projectId: Text)
    | ProjectSettings(organizationId: Text, projectId: Text)
    | Audit(organizationId: Text)
    | Observability(organizationId: Text)
    | Billing(organizationId: Text)
    | OrgDeployments(organizationId: Text)
    | Members(organizationId: Text)
    | Settings(organizationId: Text)
    | ApiKeys(organizationId: Text)
    | Docs(organizationId: Text)
    | WorkspaceSection(organizationId: Text, workspaceSection: string, sub: Option<string>)
    | ProjectSection(organizationId: Text, projectId: Text, projectSection: string, sub: Option<string>)
    | NotFound(path: Text)

  const DATABASE_SECTIONS: seq<string> :=
    ["overview", "tables", "sql", "auth", "storage", "api", "roles", "logs", "settings"]

  const WORKSPACE_SECTIONS: seq<string> :=
    ["logs", "analytics", "speed-insights", "firewall", "cdn", "env", "domains", "connect", "integrations", "storage",
     "flags", "agent", "ai-gateway", "sandboxes", "workflows", "images", "usage", "support"]

  const PROJECT_SECTIONS: seq<string> :=
    ["speed-insights", "observability", "firewall", "cdn", "connect", "integrations", "storage",
     "flags", "agent", "ai-gateway", "sandboxes", "workflows", "images", "usage", "support"]

  /** The sub-items a section has. */
  function SubSections(section: string): seq<string> {
    if section == "firewall" then ["overview", "traffic", "rules", "audit-log"]
    else if section == "cdn" then ["overview", "caches"]
    else if section == "flags" then ["overview", "entities", "sdk-keys"]
    else if section == "storage" then ["overview", "buckets"]
    else if section == "ai-gateway" then ["overview", "api-keys", "models", "playground"]
    else []
  }

  // ---------------------------------------------------------------- words

  /** A word of the program's own as text. */
  function Ascii(word: string): Text {
    seq(|word|, i requires 0 <= i < |word| => if word[i] < 128 as char then word[i] as int else 0)
  }

  predicate Is(segment: Text, word: string) {
    |segment| == |word| && forall i :: 0 <= i < |word| ==> segment[i] == word[i] as int
  }

  /** The segment at this position is there, and is this word. */
  predicate At(segments: seq<Text>, i: nat, word: string) {
    i < |segments| && Is(segments[i], word)
  }

  predicate Listed(words: seq<string>, word: string) {
    exists i :: 0 <= i < |words| && words[i] == word
  }

  lemma ListedLater(words: seq<string>, word: string)
    requires |words| > 0 && Listed(words[1..], word)
    ensures Listed(words, word)
  {
    var i :| 0 <= i < |words[1..]| && words[1..][i] == word;
    assert words[i + 1] == word;
  }

  /** The word of a list a segment spells. */
  function Lookup(words: seq<string>, segment: Text): (found: Option<string>)
    ensures found.Some? ==> Listed(words, found.value) && Is(segment, found.value)
  {
    if |words| == 0 then None
    else if Is(segment, words[0]) then Some(words[0])
    else
      var later := Lookup(words[1..], segment);
      if later.Some? then ListedLater(words, later.value); later else None
  }

  // ---------------------------------------------------------------- parsing

  /** The page of a project a single word names. */
  function ProjectPage(org: Text, project: Text, segment: Text): Option<Route> {
    if Is(segment, "domains") then Some(Domains(org, project))
    else if Is(segment, "security") then Some(Security(org, Some(project)))
    else if Is(segment, "setup") then Some(Setup(org, project))
    else if Is(segment, "git") then Some(Git(org, project))
    else if Is(segment, "env") then Some(Env(org, project))
    else if Is(segment, "logs") then Some(ProjectLogs(org, project))
    else if Is(segment, "analytics") then Some(ProjectAnalytics(org, project))
    else if Is(segment, "settings") then Some(ProjectSettings(org, project))
    else if Is(segment, "database") || Is(segment, "data") then Some(Database(org, project, None))
    else None
  }

  /** The page of an organization a single word names. */
  function WorkspacePage(org: Text, segment: Text): Option<Route> {
    if Is(segment, "audit") then Some(Audit(org))
    else if Is(segment, "observability") then Some(Observability(org))
    else if Is(segment, "security") then Some(Security(org, None))
    else if Is(segment, "deployments") then Some(OrgDeployments(org))
    else if Is(segment, "members") then Some(Members(org))
    else if Is(segment, "billing") then Some(Billing(org))
    else if Is(segment, "docs") then Some(Docs(org))
    else if Is(segment, "settings") then Some(Settings(org))
    else None
  }

  /** The generic pages, registered after every page of its own. */
  function SectionOf(clean: Text, s: seq<Text>): Route {
    if At(s, 0, "orgs") && |s| == 3 && Lookup(WORKSPACE_SECTIONS, s[2]).Some? then
      WorkspaceSection(s[1], Lookup(WORKSPACE_SECTIONS, s[2]).value, None)
    else if At(s, 0, "orgs") && |s| == 4 && Lookup(WORKSPACE_SECTIONS, s[2]).Some?
            && Lookup(SubSections(Lookup(WORKSPACE_SECTIONS, s[2]).value), s[3]).Some? then
      WorkspaceSection(s[1], Lookup(WORKSPACE_SECTIONS, s[2]).value,
                       Lookup(SubSections(Lookup(WORKSPACE_SECTIONS, s[2]).value), s[3]))
    else if At(s, 0, "orgs") && At(s, 2, "projects") && |s| == 5 && Lookup(PROJECT_SECTIONS, s[4]).Some? then
      ProjectSection(s[1], s[3], Lookup(PROJECT_SECTIONS, s[4]).value, None)
    else if At(s, 0, "orgs") && At(s, 2, "projects") && |s| == 6 && Lookup(PROJECT_SECTIONS, s[4]).Some?
            && Lookup(SubSections(Lookup(PROJECT_SECTIONS, s[4]).value), s[5]).Some? then
      ProjectSection(s[1], s[3], Lookup(PROJECT_SECTIONS, s[4]).value,
                     Lookup(SubSections(Lookup(PROJECT_SECTIONS, s[4]).value), s[5]))
    else NotFound(clean)
  }

  function RouteOf(clean: Text, s: seq<Text>): Route {
    if At(s, 0, "orgs") && |s| == 1 then Organizations
    else if At(s, 0, "orgs") && |s| == 2 then Organization(s[1])
    else if At(s, 0, "orgs") && At(s, 2, "projects") && |s| == 3 then Projects(s[1])
    else if At(s, 0, "orgs") && At(s, 2, "projects") && |s| == 4 then Project(s[1], s[3])
    else if At(s, 0, "orgs") && At(s, 2, "projects") && At(s, 4, "deployments") && |s| == 5 then Deployments(s[1], s[3])
    else if At(s, 0, "orgs") && At(s, 2, "projects") && |s| == 5 && ProjectPage(s[1], s[3], s[4]).Some? then
      ProjectPage(s[1], s[3], s[4]).value
    else if At(s, 0, "orgs") && At(s, 2, "projects") && At(s, 4, "database") && |s| == 6 then
      var section := Lookup(DATABASE_SECTIONS, s[5]);
      if section.None? then NotFound(clean) else Database(s[1], s[3], section)
    else if At(s, 0, "orgs") && At(s, 2, "settings") && At(s, 3, "api-keys") && |s| == 4 then ApiKeys(s[1])
    else if At(s, 0, "orgs") && |s| == 3 && WorkspacePage(s[1], s[2]).Some? then WorkspacePage(s[1], s[2]).value
    else SectionOf(clean, s)
  }

  /** The route a path names. A malformed escape is an error. */
  function ParseRoute(path: Text): Option<Route> {
    var clean := Clean(path);
    if clean == [SLASH] then Some(Landing)
    else if Is(clean, "/auth/callback") then Some(AuthCallback)
    else
      var segments := Components(clean);
      if segments.None? then None else Some(RouteOf(clean, segments.value))
  }

  // ---------------------------------------------------------------- printing

  /** A piece of a printed path: a word of the program's own, or a value that is encoded. */
  datatype Piece = Word(word: string) | Value(text: Text)

  function Printed(piece: Piece): Option<Text> {
    if piece.Word? then Some(Ascii(piece.word)) else Encode(piece.text)
  }

  function TextOf(piece: Piece): Text {
    if piece.Word? then Ascii(piece.word) else piece.text
  }

  function TextsOf(pieces: seq<Piece>): (texts: seq<Text>)
    ensures |texts| == |pieces|
  {
    if |pieces| == 0 then [] else [TextOf(pieces[0])] + TextsOf(pieces[1..])
  }

  function PrintAll(pieces: seq<Piece>): (printed: Option<seq<Text>>)
    ensures printed.Some? ==> |printed.value| == |pieces|
  {
    if |pieces| == 0 then Some([])
    else
      var first, rest := Printed(pieces[0]), PrintAll(pieces[1..]);
      if first.Some? && rest.Some? then Some([first.value] + rest.value) else None
  }

  /** The optional last piece: absent when there is none, or when it is empty. */
  function Maybe(word: Option<string>): seq<Piece> {
    if word.Some? && word.value != "" then [Value(Ascii(word.value))] else []
  }

  function InOrganization(org: Text, rest: seq<Piece>): seq<Piece> {
    [Word("orgs"), Value(org)] + rest
  }

  function InProject(org: Text, project: Text, rest: seq<Piece>): seq<Piece> {
    [Word("orgs"), Value(org), Word("projects"), Value(project)] + rest
  }

  function Pieces(r: Route): seq<Piece> {
    match r
    case Landing => []
    case AuthCallback => []
    case Organizations => [Word("orgs")]
    case Organization(org) => InOrganization(org, [])
    case Projects(org) => InOrganization(org, [Word("projects")])
    case Project(org, project) => InProject(org, project, [])
    case Deployments(org, project) => InProject(org, project, [Word("deployments")])
    case Domains(org, project) => InProject(org, project, [Word("domains")])
    case Database(org, project, section) => InProject(org, project, [Word("database")] + Maybe(section))
    case Security(org, project) =>
      if project.Some? && project.value != [] then InProject(org, project.value, [Word("security")])
      else InOrganization(org, [Word("security")])
    case Setup(org, project) => InProject(org, project, [Word("setup")])
    case Git(org, project) => InProject(org, project, [Word("git")])
    case Env(org, project) => InProject(org, project, [Word("env")])
    case ProjectLogs(org, project) => InProject(org, project, [Word("logs")])
    case ProjectAnalytics(org, project) => InProject(org, project, [Word("analytics")])
    case ProjectSettings(org, project) => InProject(org, project, [Word("settings")])
    case Audit(org) => InOrganization(org, [Word("audit")])
    case Observability(org) => InOrganization(org, [Word("observability")])
    case Billing(org) => InOrganization(org, [Word("billing")])
    case OrgDeployments(org) => InOrganization(org, [Word("deployments")])
    case Members(org) => InOrganization(org, [Word("members")])
    case Settings(org) => InOrganization(org, [Word("settings")])
    case ApiKeys(org) => InOrganization(org, [Word("settings"), Word("api-keys")])
    case Docs(org) => InOrganization(org, [Word("docs")])
    case WorkspaceSection(org, section, sub) => InOrganization(org, [Value(Ascii(section))] + Maybe(sub))
    case ProjectSection(org, project, section, sub) => InProject(org, project, [Value(Ascii(section))] + Maybe(sub))
    case NotFound(_) => []
  }

  /** The path a route prints. A lone surrogate in an id cannot be printed. */
  function ToPath(r: Route): Option<Text> {
    match r
    case Landing => Some([SLASH])
    case AuthCallback => Some(Ascii("/auth/callback"))
    case NotFound(path) => Some(path)
    case _ =>
      var printed := PrintAll(Pieces(r));
      if printed.Some? then Some(Joined(printed.value)) else None
  }
}
