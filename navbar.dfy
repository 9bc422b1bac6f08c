/** The bottom navigation bar. */
module Navbar {

  const AuthPath: string := "/auth"

  datatype NavItem = NavItem(path: string, caption: string)

  const NavItems: seq<NavItem> := [
    NavItem("/explore", "Explore"),
    NavItem("/community", "Community"),
    NavItem("/profile", "Profile")]

  datatype NavLink = NavLink(item: NavItem, active: bool)

  /** `navItems.map(...)`, marking the item whose path is the current one. */
  function Links(items: seq<NavItem>, pathname: string): (r: seq<NavLink>)
    ensures |r| == |items|
    ensures forall i :: 0 <= i < |r| ==> r[i].item == items[i] && (r[i].active <==> items[i].path == pathname)
    decreases |items|
  {
    if items == [] then []
    else [NavLink(items[0], items[0].path == pathname)] + Links(items[1..], pathname)
  }

  /** The bar: hidden on /auth and for a visitor who is not signed in; otherwise the three items. */
  function Navbar(pathname: string, isAuthenticated: bool): (r: seq<NavLink>)
    ensures r == [] <==> pathname == AuthPath || !isAuthenticated
    ensures r != [] ==> |r| == 3 && r[0].item.caption == "Explore" && r[1].item.caption == "Community" && r[2].item.caption == "Profile"
    ensures r != [] ==> forall i :: 0 <= i < 3 ==> r[i].item == NavItems[i]
    ensures forall i :: 0 <= i < |r| ==> (r[i].active <==> r[i].item.path == pathname)
  {
    if pathname == AuthPath then []
    else if !isAuthenticated then []
    else Links(NavItems, pathname)
  }

  /** The item paths are distinct, so at most one item is active. */
  lemma AtMostOneActive(pathname: string, isAuthenticated: bool)
    ensures forall i, j :: 0 <= i < j < |Navbar(pathname, isAuthenticated)| ==>
      !(Navbar(pathname, isAuthenticated)[i].active && Navbar(pathname, isAuthenticated)[j].active)
  {
    var r := Navbar(pathname, isAuthenticated);
    if r != [] {
      assert forall i :: 0 <= i < 3 ==> r[i].item == NavItems[i];
    }
  }
}
