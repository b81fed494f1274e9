/**
 * The application shell (`App.jsx`): which pages are shown without the
 * sidebar, the route table with the guard each route carries, and the key
 * that remounts the sidebar after a project is created. What the guard does
 * with `requireAdmin` lives in `ProtectedRoute.jsx`, which is not part of
 * this model; only the table is.
 */
module AppRoutes {
  import opened Wrappers
  import opened Strings

  datatype Page =
    | LandingPage
    | LoginPage
    | AdminDashboard
    | AccessLogPage
    | UserDashboard
    | AgentStore
    | Repositories
    | AgentView(agentId: string)
    | ProjectChat(projectId: string)

  /** How a route is wrapped: not at all, or in `ProtectedRoute` with or without `requireAdmin`. */
  datatype Guard = Unguarded | Protected(requireAdmin: bool)

  /** What the shell renders for a location: with or without the sidebar, and the matched page and its guard. */
  datatype Screen = Screen(sidebar: bool, page: Option<Page>, guard: Guard)

  const AgentPrefix: string := "/agent/"
  const ProjectPrefix: string := "/project/"

  /** `isExcludedPage`. */
  predicate IsExcludedPage(path: string) { path == "/" || path == "/login" }

  /** A value for a `:param` of the route table: one non-empty path segment. */
  predicate IsSegment(s: string) { s != "" && '/' !in s }

  /** The routes of the layout with the sidebar. */
  function MainRoute(path: string): Option<(Page, Guard)> {
    if path == "/admin" then Some((AdminDashboard, Protected(true)))
    else if path == "/admin/access-log" then Some((AccessLogPage, Protected(true)))
    else if path == "/dashboard" then Some((UserDashboard, Protected(false)))
    else if path == "/agent-store" then Some((AgentStore, Protected(true)))
    else if path == "/repositories" then Some((Repositories, Protected(true)))
    else if StartsWith(path, AgentPrefix) && IsSegment(path[|AgentPrefix|..]) then Some((AgentView(path[|AgentPrefix|..]), Protected(true)))
    else if StartsWith(path, ProjectPrefix) && IsSegment(path[|ProjectPrefix|..]) then Some((ProjectChat(path[|ProjectPrefix|..]), Protected(false)))
    else None
  }

  /** `App`: the two excluded pages alone, or the sidebar with the main routes. */
  function Render(path: string): Screen {
    if IsExcludedPage(path) then Screen(false, Some(if path == "/" then LandingPage else LoginPage), Unguarded)
    else
      match MainRoute(path)
      case Some((page, guard)) => Screen(true, Some(page), guard)
      case None => Screen(true, None, Unguarded)
  }

  /** The location each page is served at. */
  function PathOf(page: Page): string {
    match page
    case LandingPage => "/"
    case LoginPage => "/login"
    case AdminDashboard => "/admin"
    case AccessLogPage => "/admin/access-log"
    case UserDashboard => "/dashboard"
    case AgentStore => "/agent-store"
    case Repositories => "/repositories"
    case AgentView(id) => AgentPrefix + id
    case ProjectChat(id) => ProjectPrefix + id
  }

  predicate RequiresAdmin(page: Page) {
    page.AdminDashboard? || page.AccessLogPage? || page.AgentStore? || page.Repositories? || page.AgentView?
  }

  /** A page whose route parameter, if it has one, is a single path segment. */
  predicate Addressable(page: Page) {
    match page
    case AgentView(id) => IsSegment(id)
    case ProjectChat(id) => IsSegment(id)
    case _ => true
  }

  class Shell {
    var refreshKey: nat
    var modalOpen: bool

    constructor ()
      ensures refreshKey == 0 && !modalOpen
    {
      refreshKey := 0;
      modalOpen := false;
    }

    /** `handleProjectCreated`: a new key, so the sidebar is mounted again and reloads its projects. */
    method HandleProjectCreated()
      modifies this
      ensures refreshKey == old(refreshKey) + 1 && modalOpen == old(modalOpen)
    {
      refreshKey := refreshKey + 1;
    }

    method OpenCreateModal()
      modifies this
      ensures modalOpen && refreshKey == old(refreshKey)
    {
      modalOpen := true;
    }

    method CloseCreateModal()
      modifies this
      ensures !modalOpen && refreshKey == old(refreshKey)
    {
      modalOpen := false;
    }
  }

  // ---------------------------------------------------------------------------
  // Properties

  lemma PrefixedPaths(prefix: string, id: string)
    requires prefix == AgentPrefix || prefix == ProjectPrefix
    ensures (prefix + id)[..|prefix|] == prefix && (prefix + id)[|prefix|..] == id
    ensures var p := prefix + id;
      p != "/" && p != "/login" && p != "/admin" && p != "/admin/access-log"
      && p != "/dashboard" && p != "/agent-store" && p != "/repositories"
  {
    var p := prefix + id;
    assert p[..|prefix|] == prefix;
    assert p[1] == prefix[1];
    if prefix == AgentPrefix {
      assert p[6] == '/';
      assert "/agent-store"[6] == '-';
      assert p[2] == 'g' && "/admin/access-log"[2] == 'd';
    } else {
      assert p[1] == 'p';
      assert "/admin"[1] == 'a' && "/admin/access-log"[1] == 'a' && "/agent-store"[1] == 'a';
      assert "/dashboard"[1] == 'd' && "/repositories"[1] == 'r' && "/login"[1] == 'l';
    }
  }

  /** Every page is found again at its own location, behind the guard the table gives it. */
  lemma RenderPathOf(page: Page)
    requires Addressable(page)
    ensures Render(PathOf(page)).page == Some(page)
    ensures Render(PathOf(page)).sidebar <==> !(page.LandingPage? || page.LoginPage?)
    ensures !(page.LandingPage? || page.LoginPage?) ==> Render(PathOf(page)).guard == Protected(RequiresAdmin(page))
  {
    match page
    case AgentView(id) =>
      PrefixedPaths(AgentPrefix, id);
    case ProjectChat(id) =>
      PrefixedPaths(ProjectPrefix, id);
      assert !StartsWith(ProjectPrefix + id, AgentPrefix) by {
        assert (ProjectPrefix + id)[1] != AgentPrefix[1];
      }
    case _ =>
  }

  /** The sidebar is left out exactly on the landing and login pages, which are the only pages shown there. */
  lemma ExcludedPages(path: string)
    ensures !Render(path).sidebar <==> IsExcludedPage(path)
    ensures IsExcludedPage(path) ==> Render(path).page == Some(LandingPage) || Render(path).page == Some(LoginPage)
    ensures !IsExcludedPage(path) ==> Render(path).page != Some(LandingPage) && Render(path).page != Some(LoginPage)
  {
  }

  /** Only the administration pages and the agent pages ask for an admin; the dashboard and the project chats do not. */
  lemma AdminGuards(path: string)
    ensures Render(path).guard == Protected(true) <==> Render(path).page.Some? && RequiresAdmin(Render(path).page.value)
    ensures Render(path).page.Some? && !IsExcludedPage(path) ==> Render(path).guard.Protected?
  {
  }
}
