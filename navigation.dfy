/** The navigation bar's choice of the highlighted item. */
module Navigation {
  import opened JsStrings

  /** One entry of `navItems`: its route and its caption. */
  datatype NavItem = NavItem(path: string, caption: string)

  const NavItems: seq<NavItem> := [
    NavItem("/", "Home"),
    NavItem("/dashboard", "Dashboard"),
    NavItem("/historical", "Historical Data")]

  /** `isActive`: the root item only on the root itself, any other item on
      every pathname that starts with its path (a raw text prefix). */
  function IsActive(pathname: string, path: string): (active: bool)
    ensures path == "/" ==> (active <==> pathname == "/")
    ensures path != "/" ==> (active <==> |path| <= |pathname| && pathname[..|path|] == path)
  {
    if path == "/" then pathname == "/" else StartsWith(pathname, path)
  }

  /** Any continuation of an item's path keeps it active, including one
      that is not a sub-route. */
  lemma ContinuationsActive(path: string, rest: string)
    requires path != "/"
    ensures IsActive(path + rest, path)
  {
    assert (path + rest)[..|path|] == path;
  }

  /** `/dashboardX` highlights Dashboard. */
  lemma RawPrefixMatches()
    ensures IsActive("/dashboardX", "/dashboard")
  {
    ContinuationsActive("/dashboard", "X");
  }

  /** For the declared items, at most one is highlighted at a time. */
  lemma AtMostOneActive(pathname: string)
    ensures forall i, j :: 0 <= i < j < |NavItems| && IsActive(pathname, NavItems[i].path) ==>
              !IsActive(pathname, NavItems[j].path)
  {
    assert IsActive(pathname, "/dashboard") ==> pathname[1] == 'd' by {
      if IsActive(pathname, "/dashboard") { assert pathname[..10][1] == 'd'; }
    }
    assert IsActive(pathname, "/historical") ==> pathname[1] == 'h' by {
      if IsActive(pathname, "/historical") { assert pathname[..11][1] == 'h'; }
    }
  }

  /** The root pathname highlights Home and nothing else. */
  lemma RootHighlightsHomeOnly()
    ensures IsActive("/", NavItems[0].path)
    ensures forall i :: 1 <= i < |NavItems| ==> !IsActive("/", NavItems[i].path)
  {
  }
}
