/** The sidebar: its navigation items, the highlighted item derived from
    the current path, and the logout entry. */
module Sidebar {
  import opened Values
  import Seqs
  import UseAuth
  import ApiSlice
  import AuthApiSlice

  /** The items' labels, in display order. */
  const NavItems: seq<string> := ["Home", "New Request", "Requests", "Manage Users"]

  /** `s.substring(start)` for a non-negative start: past the end it is "". */
  function Substring(s: string, start: nat): (r: string)
    ensures start <= |s| ==> r == s[start..]
    ensures start >= |s| ==> r == ""
  {
    if start <= |s| then s[start..] else ""
  }

  /** The effect on `pathname`: which item the path highlights. */
  function ActiveForPath(pathname: string): string {
    if Substring(pathname, 1) == "users" then "manage users"
    else if Substring(pathname, 10) == "new" then "new request"
    else Substring(pathname, 1)
  }

  /** Where a lower-cased item label navigates. */
  function RouteFor(lcText: string): string {
    if lcText == "manage users" then "/users"
    else if lcText == "new request" then "/requests/new"
    else "/" + lcText
  }

  /** The items shown: 'Manage Users' only for an admin. */
  function ListedItems(isAdmin: bool): (items: seq<string>)
    ensures "Manage Users" in items <==> isAdmin
    ensures forall t :: t in items ==> t in NavItems
    ensures forall t :: t in NavItems && t != "Manage Users" ==> t in items
    ensures Seqs.Subsequence(items, NavItems)
  {
    Seqs.FilterSubsequence(NavItems, t => t != "Manage Users" || isAdmin);
    Seqs.FilterMembers(NavItems, t => t != "Manage Users" || isAdmin, "Manage Users");
    forall t ensures t in Seqs.Filter(NavItems, t => t != "Manage Users" || isAdmin) <==>
        t in NavItems && (t != "Manage Users" || isAdmin)
    {
      Seqs.FilterMembers(NavItems, t => t != "Manage Users" || isAdmin, t);
    }
    Seqs.Filter(NavItems, t => t != "Manage Users" || isAdmin)
  }

  /** The logout entry's label; clicking it sends a logout either way. */
  function LogoutLabel(username: string): (caption: string)
    ensures caption == "Log in" <==> username == ""
    ensures caption == "Log out" <==> username != ""
  {
    if username == "" then "Log in" else "Log out"
  }

  /** `text.toLowerCase()`, character by character. */
  lemma LowerLabel(text: string, lower: string)
    requires |text| == |lower|
    requires forall i :: 0 <= i < |text| ==> Seqs.LowerChar(text[i]) == lower[i]
    ensures Seqs.LowerAscii(text) == lower
  {
  }

  /** Clicking an item and then arriving at its route highlights that same
      item: the click's route maps back to the label the click set. */
  lemma ItemRoundTrip(i: nat)
    requires i < |NavItems|
    ensures ActiveForPath(RouteFor(Seqs.LowerAscii(NavItems[i]))) == Seqs.LowerAscii(NavItems[i])
  {
    var text := NavItems[i];
    if i == 0 {
      assert text == "Home";
      HomeRoundTrip();
    } else if i == 1 {
      assert text == "New Request";
      NewRequestRoundTrip();
    } else if i == 2 {
      assert text == "Requests";
      RequestsRoundTrip();
    } else {
      assert text == "Manage Users";
      ManageUsersRoundTrip();
    }
  }

  lemma HomeRoundTrip()
    ensures ActiveForPath(RouteFor(Seqs.LowerAscii("Home"))) == Seqs.LowerAscii("Home")
  {
    LowerLabel("Home", "home");
    RouteRoundTrip("home");
  }

  lemma NewRequestRoundTrip()
    ensures ActiveForPath(RouteFor(Seqs.LowerAscii("New Request"))) == Seqs.LowerAscii("New Request")
  {
    LowerLabel("New Request", "new request");
    NewRequestRoute();
  }

  lemma RequestsRoundTrip()
    ensures ActiveForPath(RouteFor(Seqs.LowerAscii("Requests"))) == Seqs.LowerAscii("Requests")
  {
    LowerLabel("Requests", "requests");
    RouteRoundTrip("requests");
  }

  lemma ManageUsersRoundTrip()
    ensures ActiveForPath(RouteFor(Seqs.LowerAscii("Manage Users"))) == Seqs.LowerAscii("Manage Users")
  {
    LowerLabel("Manage Users", "manage users");
    assert Substring("/users", 1) == "users";
  }

  /** A plain label's route `/label` maps back to the label, unless the
      label is 'users' or is twelve characters ending in 'new', which the
      `substring(10)` test takes for the new-request page. */
  lemma RouteRoundTrip(lcText: string)
    requires lcText != "manage users" && lcText != "new request" && lcText != "users"
    requires !(|lcText| == 12 && lcText[9..] == "new")
    ensures ActiveForPath(RouteFor(lcText)) == lcText
  {
    var p := "/" + lcText;
    assert RouteFor(lcText) == p;
    assert p[1..] == lcText;
    if |p| >= 10 {
      assert p[10..] == lcText[9..];
      assert |lcText[9..]| == 3 ==> |lcText| == 12;
    }
    assert Substring(p, 10) != "new";
  }

  lemma NewRequestRoute()
    ensures ActiveForPath(RouteFor("new request")) == "new request"
  {
    var p := "/requests/new";
    assert p[1..] == "requests/new";
    assert p[1..] != "users" by {
      assert |p[1..]| != |"users"|;
    }
    assert p[10..] == "new";
  }

  /** Paths that highlight no item: the new-user page and the edit pages. */
  lemma UnlistedPaths(id: string)
    ensures ActiveForPath("/users/new") == "users/new"
    ensures ActiveForPath("/requests/" + id) == (if id == "new" then "new request" else "requests/" + id)
  {
    assert Substring("/users/new", 1) == "users/new";
    assert Substring("/users/new", 10) == "";
    var p := "/requests/" + id;
    assert Substring(p, 10) == id;
    assert Substring(p, 1) == "requests/" + id;
  }

  class SidebarState {
    /** The highlighted item, lower-cased. */
    var active: string
    /** The routes navigated to, in order. */
    var navigations: seq<string>

    /** The component as mounted at `pathname`, its path effect run. */
    constructor (pathname: string)
      ensures active == ActiveForPath(pathname) && navigations == []
    {
      active := ActiveForPath(pathname);
      navigations := [];
    }

    /** The effect on `[pathname]`. */
    method OnPathname(pathname: string)
      modifies this
      ensures active == ActiveForPath(pathname) && navigations == old(navigations)
    {
      active := ActiveForPath(pathname);
    }

    /** An item's `onClick`: highlight it and go to its route. */
    method ClickItem(text: string)
      modifies this
      ensures active == Seqs.LowerAscii(text)
      ensures navigations == old(navigations) + [RouteFor(Seqs.LowerAscii(text))]
    {
      var lcText := Seqs.LowerAscii(text);
      active := lcText;
      navigations := navigations + [RouteFor(lcText)];
    }

    /** The logout entry's `onClick`: `sendLogout`, whatever the label. */
    method ClickLogout() returns (sent: ApiSlice.FetchArgs)
      ensures sent == AuthApiSlice.SendLogoutQuery()
    {
      sent := AuthApiSlice.SendLogoutQuery();
    }

    /** The effect on `[isSuccess]` of the logout mutation. */
    method OnLogoutSettled(isSuccess: bool)
      modifies this
      ensures navigations == old(navigations) + (if isSuccess then ["/login"] else [])
      ensures active == old(active)
    {
      if isSuccess {
        navigations := navigations + ["/login"];
      }
    }
  }

  /** A click followed by the path effect it causes leaves the clicked
      item highlighted. */
  method ClickThenArrive(sidebar: SidebarState, i: nat)
    requires i < |NavItems|
    modifies sidebar
    ensures sidebar.active == Seqs.LowerAscii(NavItems[i])
    ensures sidebar.navigations == old(sidebar.navigations) + [RouteFor(Seqs.LowerAscii(NavItems[i]))]
  {
    sidebar.ClickItem(NavItems[i]);
    var route := sidebar.navigations[|sidebar.navigations| - 1];
    ItemRoundTrip(i);
    sidebar.OnPathname(route);
  }
}
