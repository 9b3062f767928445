/**
 * The console's side menu: its items and which of them is highlighted for the
 * current path.
 */
module Sidebar {
  import opened Wrappers

  /** A menu entry: its title and the route it links to. */
  datatype MenuItem = MenuItem(title: string, href: string)

  /** The menu, in display order: dashboard, users, notices. */
  const MenuItems: seq<MenuItem> := [
    MenuItem("대시보드", "/dashboard"),
    MenuItem("유저 관리", "/users"),
    MenuItem("공지 관리", "/notices")
  ]

  predicate StartsWith(s: string, prefix: string) {
    |prefix| <= |s| && s[..|prefix|] == prefix
  }

  /**
   * An item is highlighted when the path is its route or a path below it
   * (`href + '/'` followed by anything); a missing path highlights nothing.
   */
  function IsActive(pathname: Option<string>, href: string): (active: bool)
    ensures active ==> pathname.Some? && StartsWith(pathname.value, href)
  {
    pathname == Some(href) || (pathname.Some? && StartsWith(pathname.value, href + "/"))
  }

  /** Highlighted exactly when the path is the route, or goes on after it with a `/`. */
  lemma ActiveIffWithinRoute(path: string, href: string)
    ensures IsActive(Some(path), href) <==>
      StartsWith(path, href) && (|path| == |href| || path[|href|] == '/')
  {
    if StartsWith(path, href) && (|path| == |href| || path[|href|] == '/') {
      if |path| == |href| {
        assert path == path[..|href|];
      } else {
        assert path[..|href| + 1] == path[..|href|] + [path[|href|]];
      }
    }
    if IsActive(Some(path), href) && path != href {
      assert StartsWith(path, href + "/");
      assert path[..|href|] == path[..|href| + 1][..|href|];
      assert path[|href|] == path[..|href| + 1][|href|] == (href + "/")[|href|];
    }
  }

  lemma ExactRouteActive(href: string)
    ensures IsActive(Some(href), href)
  {
  }

  lemma SubRouteActive(href: string, rest: string)
    ensures IsActive(Some(href + "/" + rest), href)
  {
    assert (href + "/" + rest)[..|href + "/"|] == href + "/";
  }

  lemma NoPathNothingActive(href: string)
    ensures !IsActive(None, href)
  {
  }

  /** `/users/5` highlights the users item; `/usersX` only shares the letters and does not. */
  lemma UsersRouteExamples()
    ensures IsActive(Some("/users/5"), MenuItems[1].href)
    ensures !IsActive(Some("/usersX"), MenuItems[1].href)
  {
    SubRouteActive("/users", "5");
    assert "/users" + "/" + "5" == "/users/5";
    ActiveIffWithinRoute("/usersX", "/users");
  }

  /** Two routes that differ in their first character after the leading `/` are never highlighted together. */
  lemma {:induction false} DistinctRoutesExclusive(path: Option<string>, h1: string, h2: string)
    requires |h1| >= 2 && |h2| >= 2 && h1[1] != h2[1]
    ensures !(IsActive(path, h1) && IsActive(path, h2))
  {
    if path.Some? && IsActive(path, h1) {
      var p := path.value;
      ActiveIffWithinRoute(p, h1);
      assert p[1] == p[..|h1|][1] == h1[1];
      ActiveIffWithinRoute(p, h2);
    }
  }

  /** Whatever the path, at most one menu item is highlighted. */
  lemma AtMostOneActive(path: Option<string>)
    ensures forall i, j :: 0 <= i < j < |MenuItems| ==>
      !(IsActive(path, MenuItems[i].href) && IsActive(path, MenuItems[j].href))
  {
    DistinctRoutesExclusive(path, MenuItems[0].href, MenuItems[1].href);
    DistinctRoutesExclusive(path, MenuItems[0].href, MenuItems[2].href);
    DistinctRoutesExclusive(path, MenuItems[1].href, MenuItems[2].href);
  }
}
