/** The desktop sidebar: the role-filtered navigation items, the highlight of the
    current one, and logout. */
module Sidebar {
  import opened Wrappers
  import opened SeqUtil
  import opened Types
  import opened Navigation
  import Auth

  const Both: seq<string> := [Manager, EmployeeRole]
  const ManagerOnly: seq<string> := [Manager]

  /** `allNavItems`: seven entries; the management pages are for managers only. */
  const AllNavItems: seq<NavItem> := [
    NavItem("/", Both),
    NavItem("/record", Both),
    NavItem("/employees", ManagerOnly),
    NavItem("/departments", ManagerOnly),
    NavItem("/kpis", ManagerOnly),
    NavItem("/activities", ManagerOnly),
    NavItem("/assignments", ManagerOnly)
  ]

  function NavItems(user: Option<Employee>): seq<NavItem> {
    VisibleItems(AllNavItems, user)
  }

  /** A manager sees every item. */
  lemma NavItemsOfManager(user: Option<Employee>)
    requires user.Some? && user.value.role == Manager
    ensures NavItems(user) == AllNavItems
  {
    FilterKeepsAll(AllNavItems, (it: NavItem) => Allowed(user, it));
  }

  /** An employee sees only the dashboard and the KPI record page. */
  lemma NavItemsOfEmployee(user: Option<Employee>)
    requires user.Some? && user.value.role == EmployeeRole
    ensures NavItems(user) == AllNavItems[..2]
    ensures Map(NavItems(user), (it: NavItem) => it.path) == ["/", "/record"]
  {
    assert EmployeeRole in Both && EmployeeRole !in ManagerOnly;
    VisiblePrefix(AllNavItems, user, 2);
  }

  /** Without a user, or for a role that is neither, the sidebar is empty. */
  lemma NavItemsOfOtherRoles(user: Option<Employee>)
    requires user.None? || (user.value.role != Manager && user.value.role != EmployeeRole)
    ensures NavItems(user) == []
  {
    assert user.None? || (user.value.role !in Both && user.value.role !in ManagerOnly);
    forall i | 0 <= i < |AllNavItems| ensures !Allowed(user, AllNavItems[i]) {
      assert AllNavItems[i].roles == Both || AllNavItems[i].roles == ManagerOnly;
    }
    FilterDropsAll(AllNavItems, (it: NavItem) => Allowed(user, it));
  }

  const Highlight: string := "bg-white/20"

  /** `isActive`: the highlight class exactly for the current path. */
  function IsActive(pathname: string, path: string): (c: string)
    ensures c == Highlight <==> pathname == path
    ensures c != Highlight ==> c == ""
  {
    ActiveClass(pathname, path, Highlight)
  }

  /** `handleLogout`: the session ends, then the browser goes to the login page, whose
      path is returned. */
  method HandleLogout(session: Auth.Session) returns (navigateTo: string)
    modifies session
    ensures !session.IsAuthenticated() && session.stored.None?
    ensures navigateTo == "/login"
  {
    session.Logout();
    navigateTo := "/login";
  }
}
