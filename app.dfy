/** The router: a fixed table from paths to pages, most of them behind the
    `ProtectedRoute` guard, and the guard's three-way decision on the session
    state. */
module App {
  import opened Wrappers
  import Text
  import AuthContext

  /** The page components the table mounts. */
  datatype View =
    | Login | Register | ForgotPassword
    | Dashboard | Courses | LearningPaths | Mentors | Enterprise | HelpCenter
    | Faq | Contact | Feedback | PrivacyPolicy | TermsOfService | CookiePolicy
    | Security | Sitemap | Accessibility | Community | Settings

  /** The element a route renders: a bare page, a page inside `ProtectedRoute`,
      or `<Navigate to=...>`. */
  datatype Element = Page(view: View) | Protected(view: View) | NavigateTo(to: string)

  /** What ends up on screen: the "Loading..." placeholder, a redirect (the
      source never sets `replace`), or a page, inside the dashboard layout
      shell or not. */
  datatype Screen = LoadingScreen | Redirect(to: string, replace: bool) | Show(view: View, inLayout: bool)

  const AuthPaths: set<string> := {"/login", "/register", "/forgot-password"}

  /** The `<Routes>` table, keyed by path; `*` is handled by `Route`. */
  const Routes: map<string, Element> := map[
    "/login" := Page(Login),
    "/register" := Page(Register),
    "/forgot-password" := Page(ForgotPassword),
    "/dashboard" := Protected(Dashboard),
    "/courses" := Protected(Courses),
    "/learning-paths" := Protected(LearningPaths),
    "/mentors" := Protected(Mentors),
    "/enterprise" := Protected(Enterprise),
    "/help-center" := Protected(HelpCenter),
    "/faq" := Protected(Faq),
    "/contact" := Protected(Contact),
    "/feedback" := Protected(Feedback),
    "/privacy-policy" := Protected(PrivacyPolicy),
    "/terms-of-service" := Protected(TermsOfService),
    "/cookie-policy" := Protected(CookiePolicy),
    "/security" := Protected(Security),
    "/sitemap" := Protected(Sitemap),
    "/accessibility" := Protected(Accessibility),
    "/community" := Protected(Community),
    "/settings" := Protected(Settings),
    "/" := NavigateTo("/dashboard")
  ]

  /** `s` without its trailing slashes. */
  function TrimTrailingSlashes(s: string): (r: string)
    ensures r <= s
    ensures r == [] || r[|r| - 1] != '/'
    ensures forall i :: |r| <= i < |s| ==> s[i] == '/'
  {
    if s != [] && s[|s| - 1] == '/' then TrimTrailingSlashes(s[..|s| - 1]) else s
  }

  /** The form in which the router compares a location with a route path:
      without case (a route matches case-insensitively unless it says
      otherwise, and the table's paths are ASCII) and without trailing
      slashes, all of which `/` itself consists of. */
  function MatchKey(path: string): (k: string)
    ensures k != []
    ensures forall i :: 0 <= i < |k| ==> !('A' <= k[i] <= 'Z')
    ensures k == "/" || k[|k| - 1] != '/'
  {
    var t := TrimTrailingSlashes(Text.ToLower(path));
    if t == [] then "/" else t
  }

  /** The element for a path; a path that matches no entry falls to the `*`
      route. */
  function Route(path: string): (e: Element)
    ensures e.Page? <==> MatchKey(path) in AuthPaths
    ensures MatchKey(path) !in Routes ==> e == NavigateTo("/dashboard")
    ensures MatchKey(path) in Routes ==> e == Routes[MatchKey(path)]
  {
    var key := MatchKey(path);
    if key in Routes then Routes[key] else NavigateTo("/dashboard")
  }

  /** A path already in the form `MatchKey` produces. */
  predicate InMatchingForm(path: string)
  {
    path != [] &&
    (forall i :: 0 <= i < |path| ==> !('A' <= path[i] <= 'Z')) &&
    (path == "/" || path[|path| - 1] != '/')
  }

  /** `MatchKey` leaves a path in matching form as it is. */
  lemma MatchKeyOfMatchingForm(path: string)
    requires InMatchingForm(path)
    ensures MatchKey(path) == path
  {
    Text.ToLowerOfLowerCase(path);
    if path == "/" {
      assert TrimTrailingSlashes(path) == TrimTrailingSlashes([]);
    }
  }

  /** Every path of the table is written in matching form. */
  lemma TableInMatchingForm(path: string)
    requires path in Routes
    ensures InMatchingForm(path)
  {
  }

  /** A path spelled as in the table gets its own entry. */
  lemma ExactSpellingMatches(path: string)
    requires path in Routes
    ensures Route(path) == Routes[path]
  {
    TableInMatchingForm(path);
    MatchKeyOfMatchingForm(path);
  }

  /** The case of a location makes no difference to the route it gets. */
  lemma RouteIgnoresCase(path: string)
    ensures Route(Text.ToLower(path)) == Route(path)
  {
    Text.ToLowerIdempotent(path);
  }

  /** Appending a slash does not change the matching form. */
  lemma MatchKeyIgnoresTrailingSlash(path: string)
    ensures MatchKey(path + "/") == MatchKey(path)
  {
    var lower := Text.ToLower(path);
    var slashed := Text.ToLower(path + "/");
    assert slashed == lower + "/" by {
      assert forall i :: 0 <= i < |slashed| ==> slashed[i] == (lower + "/")[i];
    }
    assert TrimTrailingSlashes(slashed) == TrimTrailingSlashes(lower) by {
      assert slashed[..|slashed| - 1] == lower;
    }
  }

  /** Nor does a slash at its end. */
  lemma RouteIgnoresTrailingSlash(path: string)
    ensures Route(path + "/") == Route(path)
  {
    MatchKeyIgnoresTrailingSlash(path);
  }

  /** `ProtectedRoute`: wait while the session loads, send a visitor with no
      user to the login page, and otherwise show the page in the layout. */
  function ProtectedRoute(loading: bool, user: Option<AuthContext.User>, child: View): (s: Screen)
    ensures s == LoadingScreen <==> loading
    ensures s.Redirect? <==> !loading && user.None?
    ensures s.Redirect? ==> s.to == "/login" && !s.replace
    ensures s.Show? ==> s.view == child && s.inLayout
  {
    if loading then LoadingScreen
    else if user.None? then Redirect("/login", false)
    else Show(child, true)
  }

  /** What navigating to `path` puts on screen for a given session state. */
  function Decide(path: string, loading: bool, user: Option<AuthContext.User>): (s: Screen)
    ensures s.Show? && s.inLayout ==> !loading && user.Some?
    ensures s.Show? && !s.inLayout <==> MatchKey(path) in AuthPaths
    ensures loading && MatchKey(path) !in AuthPaths && MatchKey(path) in Routes && MatchKey(path) != "/" ==> s == LoadingScreen
  {
    match Route(path)
    case Page(v) => Show(v, false)
    case Protected(v) => ProtectedRoute(loading, user, v)
    case NavigateTo(to) => Redirect(to, false)
  }

  /** Every listed path except the three sign-in paths and `/` is guarded,
      `/settings` included. */
  lemma EveryOtherPathGuarded(path: string)
    requires MatchKey(path) in Routes && MatchKey(path) !in AuthPaths && MatchKey(path) != "/"
    ensures Route(path).Protected?
  {
  }

  /** With the session loaded and nobody signed in, every guarded path
      redirects to the login page. */
  lemma GuardedPathsNeedLogin(path: string)
    requires MatchKey(path) in Routes && MatchKey(path) !in AuthPaths && MatchKey(path) != "/"
    ensures Decide(path, false, None) == Redirect("/login", false)
  {
    EveryOtherPathGuarded(path);
  }

  /** `/` and every unknown path redirect to the dashboard, which then
      redirects a visitor with no user on to the login page. */
  lemma FallbackReachesLogin(path: string)
    requires MatchKey(path) == "/" || MatchKey(path) !in Routes
    ensures Decide(path, false, None) == Redirect("/dashboard", false)
    ensures Decide("/dashboard", false, None) == Redirect("/login", false)
  {
    ExactSpellingMatches("/dashboard");
  }

  /** The guard consults nothing but the session: any signed-in user sees any
      guarded page, and the sign-in pages are shown to everyone. */
  lemma GuardIgnoresIdentity(path: string, u1: AuthContext.User, u2: AuthContext.User, loading: bool)
    ensures Decide(path, loading, Some(u1)) == Decide(path, loading, Some(u2))
  {
  }
}
