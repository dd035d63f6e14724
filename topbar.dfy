/**
 * The top bar (src/components/Layout/Topbar.js): the page title and description read
 * off the path, the signed-in user's initials, the user menu's open/closed state, and
 * signing out.
 */
module Topbar {
  import opened Wrappers
  import opened Text
  import opened Records
  import Auth
  import Routes
  import Browser

  const Titles: map<string, string> := map[
    "dashboard" := "Dashboard",
    "hotels" := "Hotels Management",
    "rooms" := "Rooms Management",
    "bookings" := "Bookings Management"]

  const Descriptions: map<string, string> := map[
    "dashboard" := "Overview of your hotel operations",
    "hotels" := "Manage your hotel properties",
    "rooms" := "Control room availability and status",
    "bookings" := "Monitor and manage reservations"]

  /** location.pathname.substring(1): the path without its first character. */
  function PageKey(pathname: string): (key: string)
    ensures |pathname| >= 1 ==> pathname == [pathname[0]] + key
    ensures pathname == "" ==> key == ""
  {
    if |pathname| >= 1 then pathname[1..] else ""
  }

  /** getPageTitle: the title of the page the path names, "Dashboard" for any other path. */
  function PageTitle(pathname: string): (title: string)
    ensures title in Titles.Values
    ensures PageKey(pathname) in Titles ==> title == Titles[PageKey(pathname)]
    ensures PageKey(pathname) !in Titles ==> title == "Dashboard"
  {
    var key := PageKey(pathname);
    assert Titles["dashboard"] == "Dashboard";
    if key in Titles then Titles[key] else "Dashboard"
  }

  /** getPageDescription: the description of the page the path names, empty for any other path. */
  function PageDescription(pathname: string): (description: string)
    ensures description != "" <==> PageKey(pathname) in Descriptions
    ensures PageKey(pathname) in Descriptions ==> description == Descriptions[PageKey(pathname)]
  {
    var key := PageKey(pathname);
    if key in Descriptions then Descriptions[key] else ""
  }

  /** The four page routes get their own title and a description; every other path gets neither. */
  lemma TitledExactlyOnPageRoutes(pathname: string)
    ensures pathname in {Routes.DashboardPath, "/hotels", "/rooms", "/bookings"} ==>
              PageDescription(pathname) != "" && PageTitle(pathname) == Titles[PageKey(pathname)]
    ensures PageDescription(pathname) != "" ==>
              exists c :: [c] + PageKey(pathname) == pathname && "/" + PageKey(pathname) in {Routes.DashboardPath, "/hotels", "/rooms", "/bookings"}
  {
    if pathname in {Routes.DashboardPath, "/hotels", "/rooms", "/bookings"} {
      assert PageKey(pathname) in Titles && PageKey(pathname) in Descriptions;
    }
    if PageDescription(pathname) != "" {
      var key := PageKey(pathname);
      assert key == "dashboard" || key == "hotels" || key == "rooms" || key == "bookings";
      if key == "dashboard" {
        assert "/" + key == Routes.DashboardPath;
      } else if key == "hotels" {
        assert "/" + key == "/hotels";
      } else if key == "rooms" {
        assert "/" + key == "/rooms";
      } else {
        assert "/" + key == "/bookings";
      }
      assert [pathname[0]] + key == pathname;
    }
  }

  /** `name?.[0] || ''`: the first character of a present, non-empty name, else nothing. */
  function Initial(name: Option<string>): (s: string)
    ensures |s| <= 1
    ensures s != "" <==> name.Some? && name.value != ""
    ensures s != "" ==> s[0] == name.value[0]
  {
    if name.Some? && name.value != "" then [name.value[0]] else ""
  }

  /** getUserInitials: the upper-cased initials of the user's names, "A" when there are none. */
  function UserInitials(user: Option<User>): (initials: string)
    ensures 1 <= |initials| <= 2
    ensures user.None? ==> initials == "A"
    ensures user.Some? ==>
              var first, last := Initial(user.value.firstName), Initial(user.value.lastName);
              && (first == "" && last == "" ==> initials == "A")
              && (first + last != "" ==> initials == ToUpper(first + last))
  {
    if user.None? then "A"
    else
      var letters := ToUpper(Initial(user.value.firstName) + Initial(user.value.lastName));
      if letters == "" then "A" else letters
  }

  /** The initials never start in lower case: a user named "ada lovelace" shows "AL". */
  lemma InitialsAreUpperCase(user: User)
    requires user.firstName.Some? && user.firstName.value != ""
    ensures UserInitials(Some(user))[0] == UpperChar(user.firstName.value[0])
  {
  }

  /** The state of the top bar: the router's path and whether the user menu is open. */
  class TopbarView {
    const session: Auth.AuthProvider
    var pathname: string
    var showUserMenu: bool

    constructor(session: Auth.AuthProvider, pathname: string)
      ensures this.session == session && this.pathname == pathname && !showUserMenu
    {
      this.session := session;
      this.pathname := pathname;
      showUserMenu := false;
    }

    /** The avatar button: opens a closed menu and closes an open one. */
    method ToggleUserMenu()
      modifies this
      ensures showUserMenu == !old(showUserMenu) && pathname == old(pathname)
    {
      showUserMenu := !showUserMenu;
    }

    /** A click on the overlay outside the menu closes it. */
    method CloseUserMenu()
      modifies this
      ensures !showUserMenu && pathname == old(pathname)
    {
      showUserMenu := false;
    }

    /** handleLogout: end the session, then navigate to the login page, which now renders the login screen. */
    method HandleLogout()
      requires session.Valid()
      modifies this, session, session.window
      ensures session.Valid() && session.user == None
      ensures session.window.storage == Browser.WithoutSession(old(session.window.storage))
      ensures pathname == Routes.LoginPath && showUserMenu == old(showUserMenu)
      ensures !session.loading ==>
                Routes.Resolve(pathname, session.user, session.loading) == Routes.Render(Routes.LoginScreen)
    {
      session.Logout();
      pathname := Routes.LoginPath;
    }
  }
}
