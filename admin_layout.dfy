/** The administration layout: the guard that redirects or hides the panel, and the rule that
    highlights the sidebar entry for the current path. */
module AdminLayout {

  /** What the authentication context reports: still loading, a signed-in user, and whether that
      user is an administrator. */
  datatype Session = Session(loading: bool, hasUser: bool, isAdmin: bool)

  /** The navigation the effect triggers, if any. */
  datatype Redirect = Stay | ToLogin | ToHome

  /** What the layout renders. */
  datatype Screen = Spinner | Blank | Panel

  /** The effect: once loading is over, no user is sent to `/login` and a user who is not an
      administrator to `/`. */
  function RedirectOf(s: Session): (r: Redirect)
    ensures r == ToLogin <==> !s.loading && !s.hasUser
    ensures r == ToHome <==> !s.loading && s.hasUser && !s.isAdmin
    ensures r == Stay <==> s.loading || (s.hasUser && s.isAdmin)
  {
    if s.loading then Stay
    else if !s.hasUser then ToLogin
    else if !s.isAdmin then ToHome
    else Stay
  }

  /** The render: a spinner while loading, nothing without an administrator, the panel otherwise. */
  function ScreenOf(s: Session): (r: Screen)
    ensures r == Spinner <==> s.loading
    ensures r == Panel <==> !s.loading && s.hasUser && s.isAdmin
  {
    if s.loading then Spinner
    else if !s.hasUser || !s.isAdmin then Blank
    else Panel
  }

  /** The effect and the render agree: the page is blank exactly when it is leaving, and the
      panel never shows on a page that is leaving. */
  lemma GuardConsistent(s: Session)
    ensures ScreenOf(s) == Blank <==> RedirectOf(s) != Stay
    ensures ScreenOf(s) == Panel ==> RedirectOf(s) == Stay
  {
  }

  // ---------------------------------------------------------------- navigation

  datatype NavItem = NavItem(href: string, caption: string)

  const Dashboard := "/admin"

  const NavItems := [
    NavItem(Dashboard, "Tableau de Bord"),
    NavItem("/admin/bookings", "Réservations"),
    NavItem("/admin/services", "Services"),
    NavItem("/admin/users", "Utilisateurs")]

  /** `isActive`: the exact path, or, for every entry but the dashboard, any path that starts with
      the entry's href. */
  predicate IsActive(pathname: string, href: string)
  {
    pathname == href || (href != Dashboard && href <= pathname)
  }

  /** The dashboard entry is active on `/admin` only, not on the pages below it. */
  lemma DashboardExact(pathname: string)
    ensures IsActive(pathname, Dashboard) <==> pathname == Dashboard
  {
  }

  /** Any other entry is active on every path that extends its href, a slash or not: the test is
      on characters, not on path segments. */
  lemma PrefixNotSegmentAware(href: string, rest: string)
    requires href != Dashboard
    ensures IsActive(href + rest, href)
  {
    assert href <= href + rest;
  }

  /** So `/admin/usersX` highlights the users entry. */
  lemma UsersLookalikeHighlighted()
    ensures IsActive("/admin/usersX", NavItems[3].href)
  {
    PrefixNotSegmentAware("/admin/users", "X");
    assert "/admin/users" + "X" == "/admin/usersX";
  }

  /** Two strings that differ at some position are never both prefixes of one path. */
  lemma NotBothPrefixes(a: string, b: string, p: string, k: nat)
    requires k < |a| && k < |b| && a[k] != b[k]
    ensures !(a <= p && b <= p)
  {
  }

  /** Every entry is highlighted on its own page, and on any path at most one entry is. */
  lemma AtMostOneActive(pathname: string)
    ensures forall i :: 0 <= i < |NavItems| ==> IsActive(NavItems[i].href, NavItems[i].href)
    ensures forall i, j :: 0 <= i < j < |NavItems| ==>
      !(IsActive(pathname, NavItems[i].href) && IsActive(pathname, NavItems[j].href))
  {
    forall i, j | 0 <= i < j < |NavItems|
      ensures !(IsActive(pathname, NavItems[i].href) && IsActive(pathname, NavItems[j].href))
    {
      var a, b := NavItems[i].href, NavItems[j].href;
      if i > 0 {
        NotBothPrefixes(a, b, pathname, 7);
      } else {
        assert |b| > |Dashboard|;
      }
    }
  }
}
