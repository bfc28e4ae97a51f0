/** The application shell: the loading screen, the development banner, the route table
    and the guard that protects routes by authentication and role. */
module App {
  import opened Wrappers
  import opened SeqUtil
  import opened Types
  import Navigation
  import Sidebar
  import MobileNav

  datatype Page = LoginPage | DashboardPage | KpiRecordPage | EmployeesPage | DepartmentsPage
                | KpisPage | ActivitiesPage | AssignmentsPage | CompetencyPage

  /** What a route element produces: a page, or a `Navigate` to another path. */
  datatype View = Render(page: Page) | Redirect(to: string)

  /** A `Route`: its path, its page, whether `ProtectedRoute` wraps it, and the roles
      that wrapper is given. */
  datatype Route = Route(path: string, page: Page, guarded: bool, roles: Option<seq<string>>)

  const LoginPath: string := "/login"
  const HomePath: string := "/"
  const ManagerOnly: seq<string> := [Manager]

  /** The route table, in declaration order; the catch-all is the fallback of
      `Resolve`. */
  const Routes: seq<Route> := [
    Route(LoginPath, LoginPage, false, None),
    Route(HomePath, DashboardPage, true, None),
    Route("/record", KpiRecordPage, true, None),
    Route("/employees", EmployeesPage, true, Some(ManagerOnly)),
    Route("/departments", DepartmentsPage, true, Some(ManagerOnly)),
    Route("/kpis", KpisPage, true, Some(ManagerOnly)),
    Route("/activities", ActivitiesPage, true, Some(ManagerOnly)),
    Route("/assignments", AssignmentsPage, true, Some(ManagerOnly))
  ]

  /** `ProtectedRoute`: no user goes to the login page; a user whose role is not among
      the given roles goes home; anyone else sees the page. */
  function ProtectedRoute(user: Option<Employee>, roles: Option<seq<string>>, page: Page): (v: View)
    ensures v.Render? <==> user.Some? && (roles.None? || user.value.role in roles.value)
    ensures v.Render? ==> v.page == page
    ensures v.Redirect? ==> v.to == (if user.None? then LoginPath else HomePath)
  {
    if user.None? then Redirect(LoginPath)
    else if roles.Some? && user.value.role !in roles.value then Redirect(HomePath)
    else Render(page)
  }

  function Element(user: Option<Employee>, r: Route): View {
    if r.guarded then ProtectedRoute(user, r.roles, r.page) else Render(r.page)
  }

  /** The view for a path: the element of the route with that path, or home when no
      route has it (`<Navigate to="/" />`). */
  function Resolve(routes: seq<Route>, user: Option<Employee>, path: string): View {
    match Find(routes, (r: Route) => r.path == path)
    case Some(r) => Element(user, r)
    case None => Redirect(HomePath)
  }

  /** No two routes share a path. */
  predicate DistinctPaths(routes: seq<Route>) {
    forall i, j :: 0 <= i < |routes| && 0 <= j < |routes| && i != j ==> routes[i].path != routes[j].path
  }

  /** The paths of the table are distinct, also with the competency route added. */
  lemma RoutePathsDistinct()
    ensures DistinctPaths(Routes)
    ensures DistinctPaths(RoutesWithCompetency)
  {
    forall i, j | 0 <= i < |Routes| && 0 <= j < |Routes| && i != j ensures Routes[i].path != Routes[j].path {
      assert |Routes[i].path| != |Routes[j].path| || Routes[i].path[1] != Routes[j].path[1];
    }
    var rs := RoutesWithCompetency;
    assert forall i :: 0 <= i < |Routes| ==> rs[i] == Routes[i];
    forall i | 0 <= i < |Routes| ensures Routes[i].path != rs[|Routes|].path {
      assert |Routes[i].path| != 11 || Routes[i].path[1] != 'c';
    }
  }

  /** A path with a route resolves to the element of that route. */
  lemma ResolveRoute(routes: seq<Route>, user: Option<Employee>, k: nat)
    requires k < |routes| && DistinctPaths(routes)
    ensures Resolve(routes, user, routes[k].path) == Element(user, routes[k])
  {
    FindFirst(routes, (r: Route) => r.path == routes[k].path, k);
  }

  /** A signed-in user whose role the route admits sees its page. */
  lemma OpensAt(routes: seq<Route>, user: Option<Employee>, k: nat)
    requires k < |routes| && DistinctPaths(routes) && user.Some?
    requires routes[k].roles.None? || user.value.role in routes[k].roles.value
    ensures Resolve(routes, user, routes[k].path) == Render(routes[k].page)
  {
    ResolveRoute(routes, user, k);
  }

  /** Every route of the table is guarded except the login page. */
  lemma OnlyLoginIsOpen(user: Option<Employee>, path: string)
    ensures path == LoginPath ==> Resolve(Routes, user, path) == Render(LoginPage)
    ensures path != LoginPath && user.None? ==> Resolve(Routes, user, path).Redirect?
    ensures path != LoginPath && user.None? && (exists i :: 0 <= i < |Routes| && Routes[i].path == path) ==>
              Resolve(Routes, user, path) == Redirect(LoginPath)
  {
    RoutePathsDistinct();
    if path == LoginPath {
      ResolveRoute(Routes, user, 0);
    } else if exists i :: 0 <= i < |Routes| && Routes[i].path == path {
      var i :| 0 <= i < |Routes| && Routes[i].path == path;
      ResolveRoute(Routes, user, i);
    }
  }

  /** The five management pages render for a manager only; any other user is sent
      home. */
  lemma ManagementPagesAreManagerOnly(user: Option<Employee>, k: nat)
    requires 3 <= k < |Routes| && user.Some?
    ensures Resolve(Routes, user, Routes[k].path).Render? <==> user.value.role == Manager
    ensures user.value.role == Manager ==> Resolve(Routes, user, Routes[k].path) == Render(Routes[k].page)
    ensures user.value.role != Manager ==> Resolve(Routes, user, Routes[k].path) == Redirect(HomePath)
  {
    RoutePathsDistinct();
    ResolveRoute(Routes, user, k);
  }

  /** The dashboard and the KPI record page render for every signed-in user. */
  lemma MemberPagesAreOpen(user: Option<Employee>, k: nat)
    requires 1 <= k < 3 && user.Some?
    ensures Resolve(Routes, user, Routes[k].path) == Render(Routes[k].page)
  {
    RoutePathsDistinct();
    ResolveRoute(Routes, user, k);
  }

  /** A path without a route, such as the competency assessment's, sends everyone
      home. */
  lemma UnknownPathsGoHome(user: Option<Employee>, path: string)
    requires forall i :: 0 <= i < |Routes| ==> Routes[i].path != path
    ensures Resolve(Routes, user, path) == Redirect(HomePath)
  {
  }

  /** As written, the table has no route for the competency assessment, so the mobile
      menu's link to it, shown to every signed-in employee, leads back home. */
  lemma CompetencyLinkGoesHome(user: Option<Employee>)
    requires user.Some? && user.value.role == EmployeeRole
    ensures MobileNav.AllNavItems[2] in MobileNav.NavItems(user)
    ensures Resolve(Routes, user, MobileNav.AllNavItems[2].path) == Redirect(HomePath)
  {
    MobileNav.NavItemsOfEmployee(user);
    assert MobileNav.NavItems(user)[2] == MobileNav.AllNavItems[2];
    var path := MobileNav.AllNavItems[2].path;
    forall i | 0 <= i < |Routes| ensures Routes[i].path != path {
      assert |Routes[i].path| != |path| || Routes[i].path[1] != path[1];
    }
    UnknownPathsGoHome(user, path);
  }

  /** The route table with the competency assessment routed for every signed-in user. */
  const RoutesWithCompetency: seq<Route> := Routes + [Route("/competency", CompetencyPage, true, None)]

  /** Sidebar item `i` is routed at `i + 1`, with the same or no role restriction. */
  lemma SidebarItemsRouted()
    ensures forall i :: 0 <= i < |Sidebar.AllNavItems| ==>
      i + 1 < |Routes| && Routes[i + 1].path == Sidebar.AllNavItems[i].path
      && (Routes[i + 1].roles.None? || Routes[i + 1].roles.value == Sidebar.AllNavItems[i].roles)
  {
  }

  /** Every sidebar link opens its page for the user who sees it. */
  lemma SidebarLinksOpen(user: Option<Employee>, item: Navigation.NavItem)
    requires item in Sidebar.NavItems(user)
    ensures Resolve(Routes, user, item.path).Render?
    ensures Resolve(RoutesWithCompetency, user, item.path).Render?
  {
    var i :| 0 <= i < |Sidebar.AllNavItems| && Sidebar.AllNavItems[i] == item;
    RoutePathsDistinct();
    SidebarItemsRouted();
    var k := i + 1;
    OpensAt(Routes, user, k);
    assert RoutesWithCompetency[k] == Routes[k];
    OpensAt(RoutesWithCompetency, user, k);
  }

  /** Mobile menu item `i` is routed, with the competency route added, at `i + 1` for the
      first two, at the end for the competency assessment, and at `i` for the rest. */
  lemma MenuItemsRouted()
    ensures forall i :: 0 <= i < |MobileNav.AllNavItems| ==>
      var k := if i < 2 then i + 1 else if i == 2 then 8 else i;
      k < |RoutesWithCompetency| && RoutesWithCompetency[k].path == MobileNav.AllNavItems[i].path
      && (RoutesWithCompetency[k].roles.None?
          || RoutesWithCompetency[k].roles.value == MobileNav.AllNavItems[i].roles)
  {
  }

  /** With the competency route every link of the mobile menu opens a page for the
      user who sees it. */
  lemma MenuLinksOpen(user: Option<Employee>, item: Navigation.NavItem)
    requires item in MobileNav.NavItems(user)
    ensures Resolve(RoutesWithCompetency, user, item.path).Render?
  {
    var i :| 0 <= i < |MobileNav.AllNavItems| && MobileNav.AllNavItems[i] == item;
    RoutePathsDistinct();
    MenuItemsRouted();
    var k := if i < 2 then i + 1 else if i == 2 then 8 else i;
    OpensAt(RoutesWithCompetency, user, k);
  }

  /** What `AppRoutes` shows: only the spinner while the store loads; afterwards the
      banner exactly in development mode with a signed-in user, above the view the route
      table gives. As written the table is `Routes`; `RoutesWithCompetency` is the
      corrected one. */
  datatype Screen = Spinner | Shell(devBanner: bool, view: View)

  function AppScreen(routes: seq<Route>, loading: bool, isDev: bool, user: Option<Employee>, path: string): (s: Screen)
    ensures s.Spinner? <==> loading
    ensures s.Shell? ==> (s.devBanner <==> isDev && user.Some?)
    ensures s.Shell? ==> s.view == Resolve(routes, user, path)
  {
    if loading then Spinner else Shell(isDev && user.Some?, Resolve(routes, user, path))
  }

  const CompetencyPath: string := "/competency"

  /** As written, every mobile menu link other than the competency assessment's opens a
      page for the user who sees it. */
  lemma MenuLinksOpenAsWritten(user: Option<Employee>, item: Navigation.NavItem)
    requires item in MobileNav.NavItems(user) && item.path != CompetencyPath
    ensures Resolve(Routes, user, item.path).Render?
  {
    var i :| 0 <= i < |MobileNav.AllNavItems| && MobileNav.AllNavItems[i] == item;
    assert MobileNav.AllNavItems[2].path == CompetencyPath;
    RoutePathsDistinct();
    MenuItemsRouted();
    assert i != 2;
    var k := if i < 2 then i + 1 else i;
    assert k < |Routes| && RoutesWithCompetency[k] == Routes[k];
    OpensAt(Routes, user, k);
  }

  /** As written, the competency assessment's path has no route and leads home. */
  lemma CompetencyPathGoesHome(user: Option<Employee>)
    ensures Resolve(Routes, user, CompetencyPath) == Redirect(HomePath)
  {
    forall i | 0 <= i < |Routes| ensures Routes[i].path != CompetencyPath {
      assert |Routes[i].path| != |CompetencyPath| || Routes[i].path[1] != CompetencyPath[1];
    }
    UnknownPathsGoHome(user, CompetencyPath);
  }

  /** Once loaded, as written: every sidebar link and every mobile menu link but the
      competency assessment's opens a page for the user who sees it, and that one leads
      home. With the competency route added, every link of either menu opens a page. */
  lemma LoadedLinksOpen(isDev: bool, user: Option<Employee>, item: Navigation.NavItem)
    requires item in MobileNav.NavItems(user) || item in Sidebar.NavItems(user)
    ensures AppScreen(Routes, false, isDev, user, item.path).Shell?
    ensures item in Sidebar.NavItems(user) ==> AppScreen(Routes, false, isDev, user, item.path).view.Render?
    ensures item in MobileNav.NavItems(user) && item.path != CompetencyPath ==>
              AppScreen(Routes, false, isDev, user, item.path).view.Render?
    ensures item.path == CompetencyPath ==>
              AppScreen(Routes, false, isDev, user, item.path).view == Redirect(HomePath)
    ensures AppScreen(RoutesWithCompetency, false, isDev, user, item.path).view.Render?
  {
    if item in Sidebar.NavItems(user) {
      SidebarLinksOpen(user, item);
    }
    if item in MobileNav.NavItems(user) {
      MenuLinksOpen(user, item);
      if item.path != CompetencyPath {
        MenuLinksOpenAsWritten(user, item);
      }
    }
    if item.path == CompetencyPath {
      CompetencyPathGoesHome(user);
    }
  }
}
