/** The top-level route choice: a spinner while loading, then the auth pages or the protected ones. */
module AppRoutes {
  import AuthContext

  datatype Page =
    | LoginPage | RegisterPage | ConfirmSignUpPage | ForgotPasswordPage
    | DashboardPage | LearnPage | ProgressPage | ProfilePage | ChatPage

  datatype Decision = Spinner | Render(page: Page) | Redirect(to: string)

  const AuthPrefix := "/auth/"
  const Home := "/"
  const LoginPath := "/auth/login"

  /** Paths the auth route matches: `/auth` itself and everything below it. */
  predicate IsAuthPath(path: string)
  {
    path == "/auth" || (|path| >= |AuthPrefix| && path[..|AuthPrefix|] == AuthPrefix)
  }

  /** The part of an auth path below `/auth/`. */
  function AuthSubPath(path: string): string
    requires IsAuthPath(path)
  {
    if path == "/auth" then "" else path[|AuthPrefix|..]
  }

  function AuthPage(sub: string): Decision
  {
    if sub == "login" then Render(LoginPage)
    else if sub == "register" then Render(RegisterPage)
    else if sub == "confirm-signup" then Render(ConfirmSignUpPage)
    else if sub == "forgot-password" then Render(ForgotPasswordPage)
    else Redirect(LoginPath)
  }

  function ProtectedPage(path: string): Decision
  {
    if path == "/" then Render(DashboardPage)
    else if path == "/learn" then Render(LearnPage)
    else if path == "/progress" then Render(ProgressPage)
    else if path == "/profile" then Render(ProfilePage)
    else if path == "/chat" then Render(ChatPage)
    else Redirect(Home)
  }

  predicate IsAuthPage(p: Page)
  {
    p == LoginPage || p == RegisterPage || p == ConfirmSignUpPage || p == ForgotPasswordPage
  }

  /** `AppContent` as a function of the auth flags and the browser path. */
  function Route(isLoading: bool, isAuthenticated: bool, path: string): (d: Decision)
    ensures d == Spinner <==> isLoading
    ensures !isLoading && isAuthenticated && IsAuthPath(path) ==> d == Redirect(Home)
    ensures !isLoading && !isAuthenticated && !IsAuthPath(path) ==> d == Redirect(LoginPath)
    ensures d.Redirect? ==> d.to == Home || d.to == LoginPath
    ensures d.Render? ==> (IsAuthPage(d.page) <==> !isAuthenticated)
  {
    if isLoading then Spinner
    else if IsAuthPath(path) then (if isAuthenticated then Redirect(Home) else AuthPage(AuthSubPath(path)))
    else if isAuthenticated then ProtectedPage(path)
    else Redirect(LoginPath)
  }

  /** Unknown sub-paths: below `/auth/` they go to the login page, elsewhere to the dashboard. */
  lemma UnknownPaths(path: string)
    ensures IsAuthPath(path) && AuthSubPath(path) !in {"login", "register", "confirm-signup", "forgot-password"}
            ==> Route(false, false, path) == Redirect(LoginPath)
    ensures !IsAuthPath(path) && path !in {"/", "/learn", "/progress", "/profile", "/chat"}
            ==> Route(false, true, path) == Redirect(Home)
  {
  }

  /** Following a redirect once always reaches a rendered page: redirects never chain. */
  lemma RedirectSettles(isAuthenticated: bool, path: string)
    ensures var d := Route(false, isAuthenticated, path);
            d.Redirect? ==> Route(false, isAuthenticated, d.to).Render?
  {
    assert LoginPath[..|AuthPrefix|] == AuthPrefix;
    assert AuthSubPath(LoginPath) == "login";
  }

  /**
   * A guest is not authenticated, so a guest is routed exactly like an anonymous visitor: even
   * the dashboard redirects a guest to the login page.
   */
  lemma GuestRoutedAsAnonymous(s: AuthContext.SessionState, path: string)
    requires s.isGuest
    ensures Route(s.isLoading, AuthContext.IsAuthenticated(s), path) == Route(s.isLoading, false, path)
    ensures !s.isLoading ==> Route(s.isLoading, AuthContext.IsAuthenticated(s), Home) == Redirect(LoginPath)
  {
  }
}
