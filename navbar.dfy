/** The top bar of the dashboard layout: hidden on the sign-in pages,
    shadowed once the window has scrolled, showing the user's initial and
    name, with a profile menu whose logout signs out and goes to the login
    page. */
module Navbar {
  import opened Wrappers
  import Text
  import AuthContext
  import App

  const ScrollThreshold: real := 20.0

  /** The avatar shown when there is no name. */
  const PlaceholderAvatar: string := "\U{1F464}"

  const FallbackName: string := "User"

  /** `isAuthPage`: the bar renders nothing on these paths. */
  predicate IsAuthPage(pathname: string)
  {
    pathname in ["/login", "/register", "/forgot-password"]
  }

  /** The bar hides itself only on paths the router serves without its
      guard. */
  lemma HiddenOnUnguardedPages(pathname: string)
    ensures IsAuthPage(pathname) ==> App.Route(pathname).Page?
  {
    if IsAuthPage(pathname) {
      assert App.InMatchingForm(pathname);
      App.MatchKeyOfMatchingForm(pathname);
      assert pathname in App.AuthPaths;
    }
  }

  /** The paths the router serves without its guard are exactly those whose
      matching form is one of the bar's three. */
  lemma UnguardedPagesByMatchingForm(pathname: string)
    ensures App.Route(pathname).Page? <==> IsAuthPage(App.MatchKey(pathname))
  {
    var key := App.MatchKey(pathname);
    assert IsAuthPage(key) <==> key in App.AuthPaths;
  }

  /** The bar's test is exact where the router's is not: `/Login` gets the
      login page, yet the bar does not count it as a sign-in page. */
  lemma RespelledSignInPathNotHidden()
    ensures App.Route("/Login").Page?
    ensures !IsAuthPage("/Login")
  {
    App.RouteIgnoresCase("/Login");
    assert Text.ToLower("/Login") == "/login";
    HiddenOnUnguardedPages("/login");
  }

  /** The scroll handler's test. */
  predicate IsScrolled(scrollY: real)
  {
    scrollY > ScrollThreshold
  }

  /** `user?.name ? user.name[0].toUpperCase() : '👤'`. */
  function AvatarInitial(user: Option<AuthContext.User>): (s: string)
    ensures |s| == 1
    ensures user.Some? && user.value.name != "" ==> s == [Text.UpperChar(user.value.name[0])]
    ensures user.None? || user.value.name == "" ==> s == PlaceholderAvatar
  {
    if user.Some? && user.value.name != "" then [Text.UpperChar(user.value.name[0])] else PlaceholderAvatar
  }

  /** `user?.name || 'User'`. */
  function ProfileName(user: Option<AuthContext.User>): (s: string)
    ensures s != ""
    ensures user.Some? && user.value.name != "" ==> s == user.value.name
    ensures user.None? || user.value.name == "" ==> s == FallbackName
  {
    if user.Some? && user.value.name != "" then user.value.name else FallbackName
  }

  /** The avatar and the name beside it agree: with no name both show their
      fallbacks, and otherwise the avatar is the upper-cased first letter of
      the name shown. */
  lemma AvatarMatchesName(user: Option<AuthContext.User>)
    ensures user.None? || user.value.name == "" ==>
              AvatarInitial(user) == PlaceholderAvatar && ProfileName(user) == FallbackName
    ensures user.Some? && user.value.name != "" ==>
              AvatarInitial(user) == [Text.UpperChar(ProfileName(user)[0])]
  {
  }

  /** A user signed in with `login` shows as 'T' and 'Test User'. */
  lemma LoginUserShown(email: string)
    ensures AvatarInitial(Some(AuthContext.LoginUser(email))) == "T"
    ensures ProfileName(Some(AuthContext.LoginUser(email))) == "Test User"
  {
  }

  /** The navbar's state cells. */
  class NavbarState {
    var isProfileMenuOpen: bool
    var isScrolled: bool

    constructor ()
      ensures !isProfileMenuOpen && !isScrolled
    {
      isProfileMenuOpen, isScrolled := false, false;
    }

    /** `handleScroll`, on every window scroll. */
    method HandleScroll(scrollY: real)
      modifies this`isScrolled
      ensures isScrolled <==> scrollY > ScrollThreshold
    {
      isScrolled := IsScrolled(scrollY);
    }

    /** The profile button's `onClick`. */
    method ToggleProfileMenu()
      modifies this`isProfileMenuOpen
      ensures isProfileMenuOpen == !old(isProfileMenuOpen)
    {
      isProfileMenuOpen := !isProfileMenuOpen;
    }
  }

  /** `handleLogout`: sign out, then go to the login page. */
  method HandleLogout(auth: AuthContext.AuthProvider) returns (navigateTo: string)
    modifies auth
    ensures auth.user == None && AuthContext.UserKey !in auth.storage
    ensures auth.storage == old(auth.storage) - {AuthContext.UserKey} && auth.loading == old(auth.loading)
    ensures navigateTo == "/login"
  {
    auth.Logout();
    navigateTo := "/login";
  }
}
