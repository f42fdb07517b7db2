/**
 * The route table of frontend/src/App.js and its `ProtectedRoute` guard:
 * for a pathname and the authentication flag, the page rendered or the
 * redirect issued.
 *
 * Matching follows React Router's rules for these static paths: letters
 * compare without regard to (ASCII) case and trailing slashes are
 * ignored; the catch-all `*` applies only when no other route matches.
 * Whether the user is authenticated comes from the authentication
 * context, which is not part of this model: it is a parameter.
 */
module Routes {
  import opened Js
  import Text

  datatype Page = HomePage | LoginPage | SignupPage | DashboardPage

  /** What a route renders: a page, or `<Navigate to=... />`. */
  datatype Element = Render(page: Page) | Redirect(to: string)

  /** `pathname` is `pattern`, in any letter case, followed by any number of slashes. */
  predicate MatchesRoute(pattern: string, pathname: string) {
    && |pathname| >= |pattern|
    && Text.ToLower(pathname[..|pattern|]) == pattern
    && forall i :: |pattern| <= i < |pathname| ==> pathname[i] == '/'
  }

  /** `ProtectedRoute`: its child when authenticated, otherwise a redirect to /login. */
  function ProtectedRoute(authenticated: bool, child: Page): (e: Element)
    ensures e == Render(child) <==> authenticated
    ensures !authenticated ==> e == Redirect("/login")
  {
    if authenticated then Render(child) else Redirect("/login")
  }

  /** The element `<Routes>` renders for a pathname. */
  function RouteElement(pathname: string, authenticated: bool): Element {
    if MatchesRoute("/", pathname) then Render(HomePage)
    else if MatchesRoute("/login", pathname) then
      (if !authenticated then Render(LoginPage) else Redirect("/dashboard"))
    else if MatchesRoute("/signup", pathname) then
      (if !authenticated then Render(SignupPage) else Redirect("/dashboard"))
    else if MatchesRoute("/dashboard", pathname) then ProtectedRoute(authenticated, DashboardPage)
    else Redirect("/")
  }

  /** The four static paths are told apart by their second character, so at most one of them matches. */
  lemma RoutesDisjoint(pathname: string)
    ensures MatchesRoute("/login", pathname) ==> !MatchesRoute("/", pathname)
    ensures MatchesRoute("/signup", pathname) ==> !MatchesRoute("/", pathname) && !MatchesRoute("/login", pathname)
    ensures MatchesRoute("/dashboard", pathname) ==>
      !MatchesRoute("/", pathname) && !MatchesRoute("/login", pathname) && !MatchesRoute("/signup", pathname)
  {
    if |pathname| >= 2 {
      var c := Text.LowerChar(pathname[1]);
      if MatchesRoute("/login", pathname) {
        assert Text.ToLower(pathname[..6])[1] == c == 'l';
      }
      if MatchesRoute("/signup", pathname) {
        assert Text.ToLower(pathname[..7])[1] == c == 's';
        assert !MatchesRoute("/login", pathname) by {
          if |pathname| >= 6 { assert Text.ToLower(pathname[..6])[1] == c; }
        }
      }
      if MatchesRoute("/dashboard", pathname) {
        assert Text.ToLower(pathname[..10])[1] == c == 'd';
        assert !MatchesRoute("/login", pathname) by {
          if |pathname| >= 6 { assert Text.ToLower(pathname[..6])[1] == c; }
        }
        assert !MatchesRoute("/signup", pathname) by {
          if |pathname| >= 7 { assert Text.ToLower(pathname[..7])[1] == c; }
        }
      }
    }
  }

  /** Each redirect target is written in lower case and so matches its own route. */
  lemma TargetsMatch()
    ensures MatchesRoute("/", "/") && MatchesRoute("/login", "/login") && MatchesRoute("/dashboard", "/dashboard")
  {
    assert Text.ToLower("/") == "/";
    assert Text.ToLower("/login") == "/login";
    assert Text.ToLower("/dashboard") == "/dashboard";
  }

  /**
   * Without authentication the Dashboard is never rendered and its path
   * redirects to /login.
   */
  lemma GuardProtectsDashboard(pathname: string)
    ensures RouteElement(pathname, false) != Render(DashboardPage)
    ensures MatchesRoute("/dashboard", pathname) ==> RouteElement(pathname, false) == Redirect("/login")
  {
    RoutesDisjoint(pathname);
  }

  /** An authenticated user asking for /login or /signup is sent to /dashboard. */
  lemma AuthenticatedSkipsAuthPages(pathname: string)
    requires MatchesRoute("/login", pathname) || MatchesRoute("/signup", pathname)
    ensures RouteElement(pathname, true) == Redirect("/dashboard")
  {
    RoutesDisjoint(pathname);
  }

  /** `/` renders Home whatever the authentication state. */
  lemma HomeForEveryone(pathname: string, authenticated: bool)
    requires MatchesRoute("/", pathname)
    ensures RouteElement(pathname, authenticated) == Render(HomePage)
  {
  }

  /** Every other path redirects to `/`. */
  lemma UnknownPathsGoHome(pathname: string, authenticated: bool)
    requires !MatchesRoute("/", pathname) && !MatchesRoute("/login", pathname)
    requires !MatchesRoute("/signup", pathname) && !MatchesRoute("/dashboard", pathname)
    ensures RouteElement(pathname, authenticated) == Redirect("/")
  {
  }

  /** The page reached by following at most `steps` route resolutions, if one is reached. */
  function Follow(pathname: string, authenticated: bool, steps: nat): Option<Page>
    decreases steps
  {
    if steps == 0 then None
    else
      match RouteElement(pathname, authenticated)
      case Render(page) => Some(page)
      case Redirect(to) => Follow(to, authenticated, steps - 1)
  }

  /**
   * From any path a page is reached within two resolutions (one redirect at
   * most), so redirects never loop; an unauthenticated user never reaches
   * the Dashboard and an authenticated one never the login or signup page.
   */
  lemma RedirectsSettle(pathname: string, authenticated: bool)
    ensures Follow(pathname, authenticated, 2).Some?
    ensures !authenticated ==> Follow(pathname, authenticated, 2).value != DashboardPage
    ensures authenticated ==>
      Follow(pathname, authenticated, 2).value != LoginPage && Follow(pathname, authenticated, 2).value != SignupPage
  {
    TargetsMatch();
    RoutesDisjoint(pathname);
    RoutesDisjoint("/login");
    RoutesDisjoint("/dashboard");
  }
}
