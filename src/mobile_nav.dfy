/** The mobile menu: the role-filtered navigation items, which also link the competency
    assessment, and the open/closed state of the menu. */
module MobileNav {
  import opened Wrappers
  import opened SeqUtil
  import opened Types
  import opened Navigation
  import Auth

  const Both: seq<string> := [Manager, EmployeeRole]
  const ManagerOnly: seq<string> := [Manager]

  /** `allNavItems`: eight entries; the management pages are for managers only. */
  const AllNavItems: seq<NavItem> := [
    NavItem("/", Both),
    NavItem("/record", Both),
    NavItem("/competency", Both),
    NavItem("/employees", ManagerOnly),
    NavItem("/departments", ManagerOnly),
    NavItem("/kpis", ManagerOnly),
    NavItem("/activities", ManagerOnly),
    NavItem("/assignments", ManagerOnly)
  ]

  function NavItems(user: Option<Employee>): seq<NavItem> {
    VisibleItems(AllNavItems, user)
  }

  /** A manager sees every item. */
  lemma NavItemsOfManager(user: Option<Employee>)
    requires user.Some? && user.value.role == Manager
    ensures NavItems(user) == AllNavItems
  {
    FilterKeepsAll(AllNavItems, (it: NavItem) => Allowed(user, it));
  }

  /** An employee sees the dashboard, the KPI record page and the competency
      assessment. */
  lemma NavItemsOfEmployee(user: Option<Employee>)
    requires user.Some? && user.value.role == EmployeeRole
    ensures NavItems(user) == AllNavItems[..3]
    ensures Map(NavItems(user), (it: NavItem) => it.path) == ["/", "/record", "/competency"]
  {
    assert EmployeeRole in Both && EmployeeRole !in ManagerOnly;
    VisiblePrefix(AllNavItems, user, 3);
  }

  /** Without a user, or for a role that is neither, the menu has no items. */
  lemma NavItemsOfOtherRoles(user: Option<Employee>)
    requires user.None? || (user.value.role != Manager && user.value.role != EmployeeRole)
    ensures NavItems(user) == []
  {
    assert user.None? || (user.value.role !in Both && user.value.role !in ManagerOnly);
    forall i | 0 <= i < |AllNavItems| ensures !Allowed(user, AllNavItems[i]) {
      assert AllNavItems[i].roles == Both || AllNavItems[i].roles == ManagerOnly;
    }
    FilterDropsAll(AllNavItems, (it: NavItem) => Allowed(user, it));
  }

  const Highlight: string := "bg-black/20"

  /** The class of a link: the highlight exactly for the current path. */
  function LinkClass(pathname: string, path: string): (c: string)
    ensures c == Highlight <==> pathname == path
    ensures c != Highlight ==> c == ""
  {
    ActiveClass(pathname, path, Highlight)
  }

  class Menu {
    var isOpen: bool

    constructor()
      ensures !isOpen
    {
      isOpen := false;
    }

    /** The items rendered: the visible ones while the menu is open, none otherwise. */
    function ShownItems(user: Option<Employee>): (r: seq<NavItem>)
      reads this
      ensures isOpen ==> r == NavItems(user)
      ensures !isOpen ==> r == []
    {
      if isOpen then NavItems(user) else []
    }

    /** The menu button flips the menu. */
    method Toggle()
      modifies this
      ensures isOpen == !old(isOpen)
    {
      isOpen := !isOpen;
    }

    /** Following a link closes the menu and goes to the link's path. */
    method FollowLink(item: NavItem) returns (navigateTo: string)
      modifies this
      ensures !isOpen && navigateTo == item.path
    {
      isOpen := false;
      navigateTo := item.path;
    }

    /** `handleLogout`: the session ends, then the browser goes to the login page. */
    method HandleLogout(session: Auth.Session) returns (navigateTo: string)
      modifies session
      ensures !session.IsAuthenticated() && session.stored.None?
      ensures navigateTo == "/login"
      ensures isOpen == old(isOpen)
    {
      session.Logout();
      navigateTo := "/login";
    }
  }
}
