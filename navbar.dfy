/**
 * The dashboard navbar: which links are highlighted for the current path, when
 * the bar is hidden, the two menus it opens and closes, and the profile section
 * shown for a signed-in user.
 */
module Navbar {
  import opened Wrappers
  import opened Text
  import opened Ui
  import AuthContext

  const ActiveClass := "bg-darkerGreen text-white"
  const InactiveClass := "text-white hover:bg-lightGreen hover:text-white"

  /** `isActive(path)`: the active style when the current path starts with `path`; no path counts as no match. */
  function IsActive(pathname: Option<string>, path: string): (r: string)
    ensures r == ActiveClass <==> pathname.Some? && StartsWith(pathname.value, path)
    ensures r == InactiveClass <==> !(pathname.Some? && StartsWith(pathname.value, path))
  {
    if pathname.Some? && StartsWith(pathname.value, path) then ActiveClass else InactiveClass
  }

  /** The bar renders nothing on the home page and the authentication pages. */
  predicate Hidden(pathname: Option<string>) {
    pathname == Some("/") || (pathname.Some? && StartsWith(pathname.value, "/auth"))
  }

  /** A prefix of a prefix is a prefix. */
  lemma StartsWithTrans(s: string, mid: string, prefix: string)
    requires StartsWith(s, mid) && StartsWith(mid, prefix)
    ensures StartsWith(s, prefix)
  {
    assert s[..|prefix|] == mid[..|prefix|];
  }

  /** The four section links, in the order the bar shows them. */
  const Sections: seq<(string, string)> := [
    ("/dashboard", "Dashboard"),
    ("/dashboard/portfolio", "Portfolios"),
    ("/dashboard/stock", "Stocks"),
    ("/dashboard/news", "News")]

  /**
   * Matching by prefix highlights the Dashboard link on every page below
   * /dashboard, together with that section's own link.
   */
  lemma DashboardActiveWithSection(pathname: string, k: nat)
    requires 1 <= k < |Sections| && StartsWith(pathname, Sections[k].0)
    ensures IsActive(Some(pathname), Sections[k].0) == ActiveClass
    ensures IsActive(Some(pathname), "/dashboard") == ActiveClass
  {
    StartsWithTrans(pathname, Sections[k].0, "/dashboard");
  }

  /** The bar is never hidden on a dashboard page. */
  lemma ShownOnDashboardPages(pathname: string)
    requires StartsWith(pathname, "/dashboard")
    ensures !Hidden(Some(pathname))
  {
    assert pathname[1] == 'd';
  }

  /** `user.username.charAt(0).toUpperCase()`: empty for an empty username. */
  function Avatar(username: string): (r: string)
    ensures |r| <= 1
    ensures username != [] ==> r == [UpperChar(username[0])]
    ensures username == [] ==> r == []
  {
    if username == [] then [] else [UpperChar(username[0])]
  }

  datatype NavLink = NavLink(href: string, text: string, style: string)

  /** The mobile menu's profile block: the avatar letter, the name and the email. */
  datatype Profile = Profile(avatar: string, username: string, email: string)

  /**
   * The rendered bar: the section links; on wide screens the avatar button and,
   * when its dropdown is open, the "Signed in as" name; on narrow screens, inside
   * the open mobile menu, the links again and the profile block with the email.
   */
  datatype NavView =
    | NoBar
    | Bar(links: seq<NavLink>, avatar: Option<string>, signedInAs: Option<string>,
          mobileLinks: seq<NavLink>, mobileProfile: Option<Profile>)

  function Links(pathname: Option<string>): (r: seq<NavLink>)
    ensures |r| == |Sections|
    ensures forall i :: 0 <= i < |r| ==>
      r[i].href == Sections[i].0 && r[i].text == Sections[i].1 && r[i].style == IsActive(pathname, Sections[i].0)
  {
    seq(|Sections|, i requires 0 <= i < |Sections| => NavLink(Sections[i].0, Sections[i].1, IsActive(pathname, Sections[i].0)))
  }

  /**
   * What the bar shows: nothing on hidden paths; otherwise the section links, the
   * avatar for a signed-in user and the name in its dropdown while that is open;
   * the mobile links only while the mobile menu is open, and the profile block,
   * the one place the email appears, only when that menu is open for a signed-in user.
   */
  function Render(pathname: Option<string>, user: Option<SessionUser>, isMenuOpen: bool, isProfileMenuOpen: bool): (v: NavView)
    ensures v == NoBar <==> Hidden(pathname)
    ensures v.Bar? ==> v.links == Links(pathname)
    ensures v.Bar? ==> (v.avatar.Some? <==> user.Some?)
    ensures v.Bar? && user.Some? ==> v.avatar.value == Avatar(user.value.username)
    ensures v.Bar? ==> (v.signedInAs.Some? <==> user.Some? && isProfileMenuOpen)
    ensures v.Bar? && v.signedInAs.Some? ==> v.signedInAs.value == user.value.username
    ensures v.Bar? ==> (v.mobileLinks == if isMenuOpen then Links(pathname) else [])
    ensures v.Bar? ==> (v.mobileProfile.Some? <==> isMenuOpen && user.Some?)
    ensures v.Bar? && v.mobileProfile.Some? ==>
      v.mobileProfile.value == Profile(Avatar(user.value.username), user.value.username, user.value.email)
  {
    if Hidden(pathname) then NoBar
    else
      Bar(Links(pathname),
          if user.Some? then Some(Avatar(user.value.username)) else None,
          if user.Some? && isProfileMenuOpen then Some(user.value.username) else None,
          if isMenuOpen then Links(pathname) else [],
          if isMenuOpen && user.Some? then Some(Profile(Avatar(user.value.username), user.value.username, user.value.email)) else None)
  }

  /** The bar's own state: the mobile menu and the profile dropdown. */
  class NavbarState {
    var isMenuOpen: bool
    var isProfileMenuOpen: bool

    constructor ()
      ensures !isMenuOpen && !isProfileMenuOpen
    {
      isMenuOpen := false;
      isProfileMenuOpen := false;
    }

    /** `toggleMenu`; toggling twice restores the menu. */
    method ToggleMenu()
      modifies this
      ensures isMenuOpen == !old(isMenuOpen) && isProfileMenuOpen == old(isProfileMenuOpen)
    {
      isMenuOpen := !isMenuOpen;
    }

    /** `toggleProfileMenu`. */
    method ToggleProfileMenu()
      modifies this
      ensures isProfileMenuOpen == !old(isProfileMenuOpen) && isMenuOpen == old(isMenuOpen)
    {
      isProfileMenuOpen := !isProfileMenuOpen;
    }

    /** A mobile link or the mobile Settings link was followed. */
    method CloseMenu()
      modifies this
      ensures !isMenuOpen && isProfileMenuOpen == old(isProfileMenuOpen)
    {
      isMenuOpen := false;
    }

    /** The dropdown's Settings link was followed. */
    method CloseProfileMenu()
      modifies this
      ensures !isProfileMenuOpen && isMenuOpen == old(isMenuOpen)
    {
      isProfileMenuOpen := false;
    }

    /** `handleLogout`: the session's logout; the menus keep their state. */
    method HandleLogout(auth: AuthContext.AuthProvider)
      modifies auth
      ensures auth.user.None? && auth.storedToken.None? && auth.route == Some("/")
      ensures auth.loading == old(auth.loading)
    {
      auth.Logout();
    }
  }

  /** Toggling either menu twice leaves both menus as they were. */
  method ToggleTwice(nav: NavbarState)
    modifies nav
    ensures nav.isMenuOpen == old(nav.isMenuOpen) && nav.isProfileMenuOpen == old(nav.isProfileMenuOpen)
  {
    nav.ToggleMenu();
    nav.ToggleMenu();
    nav.ToggleProfileMenu();
    nav.ToggleProfileMenu();
  }
}
