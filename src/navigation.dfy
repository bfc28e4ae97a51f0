/** What the sidebar and the mobile menu share: a navigation item and the role filter
    over a fixed list of items. */
module Navigation {
  import opened Wrappers
  import opened SeqUtil
  import opened Types

  /** A navigation entry: its path and the roles allowed to see it. */
  datatype NavItem = NavItem(path: string, roles: seq<string>)

  predicate Allowed(user: Option<Employee>, item: NavItem) {
    user.Some? && user.value.role in item.roles
  }

  /** `allNavItems.filter(item => user && item.roles.includes(user.role))`: the items
      whose roles include the user's role, in declared order; none without a user. */
  function VisibleItems(items: seq<NavItem>, user: Option<Employee>): (r: seq<NavItem>)
    ensures user.None? ==> r == []
    ensures forall it :: it in r <==> it in items && Allowed(user, it)
  {
    var r := Filter(items, (it: NavItem) => Allowed(user, it));
    assert user.None? ==> r == [] by {
      if user.None? {
        FilterDropsAll(items, (it: NavItem) => Allowed(user, it));
      }
    }
    r
  }

  /** The visible items keep their declared order: they are the declared list with the
      others removed. */
  lemma VisibleItemsInOrder(items: seq<NavItem>, user: Option<Employee>)
    ensures VisibleItems(items, user) == Filter(items, (it: NavItem) => Allowed(user, it))
  {
  }

  /** When the user may see exactly the first `n` items, those are what shows. */
  lemma {:induction false} VisiblePrefix(items: seq<NavItem>, user: Option<Employee>, n: nat)
    requires n <= |items|
    requires forall i :: 0 <= i < n ==> Allowed(user, items[i])
    requires forall i :: n <= i < |items| ==> !Allowed(user, items[i])
    ensures VisibleItems(items, user) == items[..n]
  {
    var p := (it: NavItem) => Allowed(user, it);
    assert items == items[..n] + items[n..];
    FilterConcat(items[..n], items[n..], p);
    FilterKeepsAll(items[..n], p);
    FilterDropsAll(items[n..], p);
  }

  /** The highlight of a link: its class exactly when the current pathname equals its
      path. */
  function ActiveClass(pathname: string, path: string, highlight: string): (c: string)
    requires highlight != ""
    ensures c != "" <==> pathname == path
    ensures c != "" ==> c == highlight
  {
    if pathname == path then highlight else ""
  }
}
