/** The top bar: the formatted user name, the user menu, the colour-mode
    switch and the logout it offers. */
module Topbar {
  import opened Values
  import Seqs
  import ApiSlice
  import AuthApiSlice
  import ColorModeSlice

  /** `formatUsername`: the first character upper-cased. */
  function FormatUsername(username: string): (r: string)
    ensures |r| == |username|
    ensures username != "" ==> r[0] == Seqs.UpperChar(username[0]) && r[1..] == username[1..]
  {
    if username != "" then [Seqs.UpperChar(username[0])] + username[1..] else ""
  }

  /** Formatting twice is formatting once, and it changes nothing but the
      case of the first letter. */
  lemma FormatUsernameProperties(username: string)
    ensures FormatUsername(FormatUsername(username)) == FormatUsername(username)
    ensures Seqs.LowerAscii(FormatUsername(username)) == Seqs.LowerAscii(username)
  {
    var r := FormatUsername(username);
    if username != "" {
      assert FormatUsername(r)[1..] == r[1..];
      var c := username[0];
      assert Seqs.LowerChar(Seqs.UpperChar(c)) == Seqs.LowerChar(c);
      assert Seqs.LowerAscii(r)[0] == Seqs.LowerAscii(username)[0];
    }
  }

  /** The user menu's one entry. */
  datatype MenuOption = LogIn | Logout

  function UserMenuOption(username: string): (o: MenuOption)
    ensures o == LogIn <==> username == ""
  {
    if username == "" then LogIn else Logout
  }

  /** What choosing the menu entry does. */
  datatype Choice = Navigate(route: string) | SendLogout(request: ApiSlice.FetchArgs)

  class TopbarState {
    /** `anchorElUser`: the element the menu hangs from, as an identifier. */
    var anchor: Option<nat>
    /** The routes navigated to, in order. */
    var navigations: seq<string>

    constructor ()
      ensures anchor == None && navigations == []
      ensures !MenuOpen()
    {
      anchor := None;
      navigations := [];
    }

    /** `open={Boolean(anchorElUser)}`. */
    predicate MenuOpen()
      reads this
    {
      anchor.Some?
    }

    method HandleOpenUserMenu(target: nat)
      modifies this
      ensures MenuOpen() && anchor == Some(target) && navigations == old(navigations)
    {
      anchor := Some(target);
    }

    method HandleCloseUserMenu()
      modifies this
      ensures !MenuOpen() && navigations == old(navigations)
    {
      anchor := None;
    }

    /** `handleLogout`: the menu closes, then the logout is sent. */
    method HandleLogout() returns (sent: ApiSlice.FetchArgs)
      modifies this
      ensures !MenuOpen() && navigations == old(navigations)
      ensures sent == AuthApiSlice.SendLogoutQuery()
    {
      HandleCloseUserMenu();
      sent := AuthApiSlice.SendLogoutQuery();
    }

    /** Choosing the menu entry: 'Log in' navigates and leaves the menu as
        it was, 'Logout' closes it and sends the logout. */
    method ChooseMenuOption(username: string) returns (choice: Choice)
      modifies this
      ensures username == "" ==>
        choice == Navigate("/login") && navigations == old(navigations) + ["/login"] && anchor == old(anchor)
      ensures username != "" ==>
        choice == SendLogout(AuthApiSlice.SendLogoutQuery()) && navigations == old(navigations) && !MenuOpen()
    {
      if UserMenuOption(username) == LogIn {
        navigations := navigations + ["/login"];
        choice := Navigate("/login");
      } else {
        var sent := HandleLogout();
        choice := SendLogout(sent);
      }
    }

    /** The effect on `[isSuccess]` of the logout mutation. */
    method OnLogoutSettled(isSuccess: bool)
      modifies this
      ensures navigations == old(navigations) + (if isSuccess then ["/login"] else [])
      ensures anchor == old(anchor)
    {
      if isSuccess {
        navigations := navigations + ["/login"];
      }
    }
  }

  /** The mode button: `dispatch(setMode())`. */
  method ToggleColorMode(colorMode: ColorModeSlice.ColorModeState)
    modifies colorMode
    ensures colorMode.mode == ColorModeSlice.Toggled(old(colorMode.mode))
  {
    colorMode.SetMode();
  }
}
