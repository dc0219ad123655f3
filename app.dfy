/** The application shell: the route table with its two guards, the initial `isAuth` and
    the rule that decides where the bottom player is shown. */
module App {
  import opened JsValues

  datatype Page = HomePage | AboutPage | ContactPage | SignInPage | SignUpPage | MusicPage | FavoritesPage

  /** How a route is wrapped: not at all, in `ProtectedRoute`, or in `PublicOnlyRoute`. */
  datatype Guard = Open | Protected | PublicOnly

  /** What rendering a path yields: the page, a `<Navigate replace>` to another path, or
      nothing when no route matches. */
  datatype RouteResult = Render(page: Page) | Redirect(target: string) | NoMatch

  /** `ProtectedRoute`: the page for a signed-in user, otherwise off to `/signin`. */
  function ProtectedRoute(isAuth: bool, page: Page): (r: RouteResult)
    ensures r == Render(page) <==> isAuth
    ensures !isAuth ==> r == Redirect("/signin")
  {
    if !isAuth then Redirect("/signin") else Render(page)
  }

  /** `PublicOnlyRoute`: a signed-in user is sent on to `/music`. */
  function PublicOnlyRoute(isAuth: bool, page: Page): (r: RouteResult)
    ensures r == Render(page) <==> !isAuth
    ensures isAuth ==> r == Redirect("/music")
  {
    if isAuth then Redirect("/music") else Render(page)
  }

  /** The `<Routes>` of the application, matched on the exact path. */
  function RouteTable(path: string): (r: Option<(Guard, Page)>)
    ensures r.None? <==> path !in ["/", "/about", "/contact", "/signin", "/signup", "/music", "/favorites"]
    ensures r.Some? && r.value.0 == Protected <==> path == "/music" || path == "/favorites"
    ensures r.Some? && r.value.0 == PublicOnly <==> path == "/signin" || path == "/signup"
  {
    if path == "/" then Some((Open, HomePage))
    else if path == "/about" then Some((Open, AboutPage))
    else if path == "/contact" then Some((Open, ContactPage))
    else if path == "/signin" then Some((PublicOnly, SignInPage))
    else if path == "/signup" then Some((PublicOnly, SignUpPage))
    else if path == "/music" then Some((Protected, MusicPage))
    else if path == "/favorites" then Some((Protected, FavoritesPage))
    else None
  }

  function Resolve(path: string, isAuth: bool): (r: RouteResult)
    ensures RouteTable(path).None? <==> r.NoMatch?
  {
    match RouteTable(path)
    case None => NoMatch
    case Some((guard, page)) =>
      match guard
      case Open => Render(page)
      case Protected => ProtectedRoute(isAuth, page)
      case PublicOnly => PublicOnlyRoute(isAuth, page)
  }

  /** `useState(!!localStorage.getItem("token"))`: signed in at start exactly when a
      non-empty token is stored. */
  function InitialIsAuth(stored: Option<string>): (r: bool)
    ensures r <==> stored.Some? && |stored.value| > 0
  {
    Truthy(stored)
  }

  const HidePlayerRoutes: seq<string> := ["/signin", "/signup"]

  /** `isAuth && !hidePlayerRoutes.includes(location.pathname)`. */
  function ShowPlayer(isAuth: bool, pathname: string): (r: bool)
    ensures r <==> isAuth && pathname != "/signin" && pathname != "/signup"
  {
    isAuth && pathname !in HidePlayerRoutes
  }

  /** The music and favorites pages render only for a signed-in user and otherwise
      redirect to the sign-in page. */
  lemma ProtectedPagesNeedAuth(path: string, isAuth: bool)
    requires path == "/music" || path == "/favorites"
    ensures Resolve(path, isAuth).Render? <==> isAuth
    ensures !isAuth ==> Resolve(path, isAuth) == Redirect("/signin")
  {
  }

  /** The sign-in and sign-up pages send a signed-in user to the music page. */
  lemma PublicOnlyPagesRedirectWhenSignedIn(path: string, isAuth: bool)
    requires path == "/signin" || path == "/signup"
    ensures Resolve(path, isAuth).Render? <==> !isAuth
    ensures isAuth ==> Resolve(path, isAuth) == Redirect("/music")
  {
  }

  /** The home, about and contact pages render whatever the authentication state. */
  lemma OpenPagesAlwaysRender(path: string, isAuth: bool)
    requires path == "/" || path == "/about" || path == "/contact"
    ensures Resolve(path, isAuth).Render? && Resolve(path, isAuth) == Resolve(path, !isAuth)
  {
  }

  /** A redirect always lands on a page that renders for the same authentication state,
      so the guards cannot redirect in a loop. */
  lemma NoRedirectLoops(path: string, isAuth: bool)
    ensures Resolve(path, isAuth).Redirect? ==> Resolve(Resolve(path, isAuth).target, isAuth).Render?
  {
  }

  /** The bottom player is never shown over a redirect: on a path of the table it appears
      only where a page renders. */
  lemma PlayerOnlyOverRenderedPages(path: string, isAuth: bool)
    requires RouteTable(path).Some?
    ensures ShowPlayer(isAuth, path) ==> Resolve(path, isAuth).Render?
  {
  }
}
