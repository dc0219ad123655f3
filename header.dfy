/** The header: its navigation links and buttons, which depend on `isAuth`, the active
    link, and logging out. */
module Header {
  import opened JsValues
  import opened ClientSession
  import App

  /** `isActive(path)`: the link is highlighted on exactly its own path, character for
      character, so not on the same path with a trailing slash. */
  function IsActive(pathname: string, path: string): (r: bool)
    ensures r <==> |pathname| == |path| && forall i :: 0 <= i < |path| ==> pathname[i] == path[i]
    ensures pathname == path + "/" ==> !r
  {
    pathname == path
  }

  /** The navigation links, in order. */
  function NavLinks(isAuth: bool): (r: seq<string>)
    ensures isAuth ==> r == ["/", "/music", "/favorites", "/about"]
    ensures !isAuth ==> r == ["/", "/about", "/contact"]
  {
    if isAuth then ["/", "/music", "/favorites", "/about"] else ["/", "/about", "/contact"]
  }

  datatype AuthButton = SignInButton | SignUpButton | LogoutButton

  /** The buttons on the right: Sign in only when signed out, then Logout when signed in
      and otherwise Sign up. */
  function AuthButtons(isAuth: bool): (r: seq<AuthButton>)
    ensures SignInButton in r <==> !isAuth
    ensures LogoutButton in r <==> isAuth
    ensures SignUpButton in r <==> !isAuth
    ensures |r| == (if isAuth then 1 else 2)
  {
    (if !isAuth then [SignInButton] else []) + (if isAuth then [LogoutButton] else [SignUpButton])
  }

  /** Where a button's link leads; Logout is not a link but a handler. */
  function ButtonTarget(b: AuthButton): Option<string> {
    match b
    case SignInButton => Some("/signin")
    case SignUpButton => Some("/signup")
    case LogoutButton => None
  }

  /** Every link the header offers leads to a page that renders, without a redirect, for
      the authentication state it was shown in. */
  lemma HeaderLinksRender(isAuth: bool)
    ensures forall i :: 0 <= i < |NavLinks(isAuth)| ==> App.Resolve(NavLinks(isAuth)[i], isAuth).Render?
    ensures forall b :: b in AuthButtons(isAuth) && ButtonTarget(b).Some? ==>
              App.Resolve(ButtonTarget(b).value, isAuth).Render?
  {
  }

  /** At most one navigation link is active at a time. */
  lemma AtMostOneActive(pathname: string, isAuth: bool, i: nat, j: nat)
    requires i < |NavLinks(isAuth)| && j < |NavLinks(isAuth)|
    requires IsActive(pathname, NavLinks(isAuth)[i]) && IsActive(pathname, NavLinks(isAuth)[j])
    ensures i == j
  {
  }

  /** `handleLogout`: signed out, token removed, on the sign-in page. */
  method HandleLogout(b: Browser)
    modifies b
    ensures !b.isAuth && b.token == None && b.location == "/signin"
  {
    b.isAuth := false;
    b.token := None;
    b.location := "/signin";
  }

  /** After logging out the sign-in page renders (it is not redirected back). */
  lemma LogoutLandsOnSignIn()
    ensures App.Resolve("/signin", false) == App.Render(App.SignInPage)
  {
  }
}
