/**
 * The top navigation bar (src/components/Navbar.jsx): the session and admin
 * flags, the account dropdown, logout, the dashboard button and which links
 * a visitor sees.
 */
module Navbar {
  import opened Js
  import opened Records
  import opened Auth

  const AdminHome := "/admin"
  const UserHome := "/dashboard"
  const LoginPath := "/login"
  const ExplorePath := "/explore"

  /** `setIsAuthenticated(!!authInfo)` and `setIsAdmin(authInfo?.role === 'admin')`. */
  datatype SessionFlags = SessionFlags(authenticated: bool, admin: bool)

  function FlagsOf(info: Option<AuthInfo>): (r: SessionFlags)
    ensures r.authenticated <==> info.Some?
    ensures r.admin ==> r.authenticated
    ensures r.admin <==> info.Some? && info.value.role == Some(AdminRole)
  {
    SessionFlags(info.Some?, info.Some? && info.value.role == Some(AdminRole))
  }

  /** The bar's admin flag agrees with `checkAdmin` on the same session. */
  lemma AdminFlagAgreesWithCheckAdmin(info: Option<AuthInfo>)
    ensures FlagsOf(info).admin <==> CheckAdmin(info).Ok?
  {
  }

  /** The dashboard button's destination and label. */
  function DashboardTarget(isAdmin: bool): (r: (string, string))
    ensures isAdmin ==> r == (AdminHome, "Admin Dashboard")
    ensures !isAdmin ==> r == (UserHome, "Dashboard")
  {
    if isAdmin then (AdminHome, "Admin Dashboard") else (UserHome, "Dashboard")
  }

  /** The items on the right of the bar. */
  datatype NavItems =
    | SignedIn(dropdownShown: bool)
    | SignedOut(exploreShown: bool)

  function ItemsOf(isAuthenticated: bool, isDropdownOpen: bool, pathname: string): (r: NavItems)
    ensures r.SignedIn? <==> isAuthenticated
    ensures r.SignedIn? ==> r.dropdownShown == isDropdownOpen
    ensures r.SignedOut? ==> (r.exploreShown <==> pathname != ExplorePath)
  {
    if isAuthenticated then SignedIn(isDropdownOpen) else SignedOut(pathname != ExplorePath)
  }

  /** The bar's state. */
  class NavbarState {
    var isAuthenticated: bool
    var isAdmin: bool
    var isDropdownOpen: bool

    constructor ()
      ensures !isAuthenticated && !isAdmin && !isDropdownOpen
    {
      isAuthenticated, isAdmin, isDropdownOpen := false, false, false;
    }

    function Items(pathname: string): NavItems
      reads this
    {
      ItemsOf(isAuthenticated, isDropdownOpen, pathname)
    }

    /** `checkAuth()`, with `info` what `getAuthInfo()` returned. */
    method CheckAuth(info: Option<AuthInfo>)
      modifies this`isAuthenticated, this`isAdmin
      ensures SessionFlags(isAuthenticated, isAdmin) == FlagsOf(info)
    {
      isAuthenticated := info.Some?;
      isAdmin := info.Some? && info.value.role == Some(AdminRole);
    }

    /** `handleClickOutside(event)`: `inside` tells whether the click landed in the dropdown container. */
    method HandleClickOutside(inside: bool)
      modifies this`isDropdownOpen
      ensures isDropdownOpen == (old(isDropdownOpen) && inside)
    {
      if isDropdownOpen && !inside {
        isDropdownOpen := false;
      }
    }

    /** The account button's `onClick`. */
    method ToggleDropdown()
      modifies this`isDropdownOpen
      ensures isDropdownOpen == !old(isDropdownOpen)
    {
      isDropdownOpen := !isDropdownOpen;
    }

    /** `handleDashboardClick()`. */
    method HandleDashboardClick() returns (nav: Navigation)
      modifies this`isDropdownOpen
      ensures !isDropdownOpen
      ensures nav == Go(DashboardTarget(isAdmin).0)
    {
      isDropdownOpen := false;
      nav := Go(DashboardTarget(isAdmin).0);
    }

    /**
     * `handleLogout()`: `logout` clears the stored token whatever the server
     * says, and the bar signs out and goes to the login page on success and
     * on failure alike.
     */
    method HandleLogout(store: TokenStore, result: ApiResult) returns (nav: Navigation)
      // `result` is only logged on failure; both paths do the same thing
      modifies this`isAuthenticated, this`isAdmin, store
      ensures !isAuthenticated && !isAdmin
      ensures store.slot == None
      ensures nav == Go(LoginPath)
    {
      store.RemoveAuthToken();
      isAuthenticated := false;
      isAdmin := false;
      nav := Go(LoginPath);
    }
  }

  /** After logout no session can be read back, so a fresh check leaves the bar signed out. */
  lemma LoggedOutStaysSignedOut(decode: string -> Decoding)
    ensures FlagsOf(AuthInfoOf(None, decode)) == SessionFlags(false, false)
  {
  }
}
