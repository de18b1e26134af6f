/**
 * Where the app sends a visitor: the OAuth callback's redirect after the code
 * exchange, and the two page gates (admin-only and sign-in-required). The
 * exchange, the user lookup and the role query are one parameter answering
 * with how the sign-in went.
 */
module AuthRedirects {
  import opened Wrappers
  import opened Domain
  import AuthService

  const SignInPath: string := "/auth/signin"
  const PanelPath: string := "/dashboard/panel"
  const ChatPath: string := "/dashboard/chat"
  const AuthFailedPath: string := "/auth/signin?error=authentication_failed"
  const UnexpectedPath: string := "/auth/signin?error=unexpected_error"

  /**
   * How the callback's steps went for a code: the exchange failed, some step
   * threw, no user was found, or a user was found whose profile has `role`
   * (None when there is no profile or no role in it).
   */
  datatype Exchange = ExchangeFailed | Threw | NoUser | SignedIn(role: Option<string>)

  /** The path the callback redirects to, below the request's origin. */
  function CallbackPath(code: Option<string>, exchange: string -> Exchange): (path: string)
    ensures path in {SignInPath, AuthFailedPath, UnexpectedPath, PanelPath, ChatPath}
    ensures |path| > 1 && path[0] == '/'
    ensures path == PanelPath <==> code.Some? && code.value != "" && exchange(code.value) == SignedIn(Some("admin"))
  {
    if code.None? || code.value == "" then SignInPath
    else
      match exchange(code.value)
      case ExchangeFailed => AuthFailedPath
      case Threw => UnexpectedPath
      case NoUser => ChatPath
      case SignedIn(role) => if role == Some("admin") then PanelPath else ChatPath
  }

  /** The callback's redirect: the origin followed by the chosen path. */
  function CallbackRedirect(origin: string, code: Option<string>, exchange: string -> Exchange): (url: string)
    ensures |url| > |origin| && url[..|origin|] == origin && url[|origin|] == '/'
  {
    var path := CallbackPath(code, exchange);
    assert (origin + path)[|origin|] == path[0];
    origin + path
  }

  /** The sign-in page is the answer exactly when there is no code; its error variants mark failed sign-ins. */
  lemma CallbackSignInCases(code: Option<string>, exchange: string -> Exchange)
    ensures CallbackPath(code, exchange) == SignInPath <==> code.None? || code.value == ""
    ensures CallbackPath(code, exchange) == AuthFailedPath <==>
      code.Some? && code.value != "" && exchange(code.value) == ExchangeFailed
    ensures CallbackPath(code, exchange) == UnexpectedPath <==>
      code.Some? && code.value != "" && exchange(code.value) == Threw
  {
  }

  /** Everyone who got through the exchange lands on the dashboard: the panel for admins, the chat otherwise. */
  lemma SignedInReachDashboard(code: string, exchange: string -> Exchange)
    requires code != ""
    requires exchange(code).NoUser? || exchange(code).SignedIn?
    ensures CallbackPath(Some(code), exchange) == (if exchange(code) == SignedIn(Some("admin")) then PanelPath else ChatPath)
  {
  }

  // ---------------------------------------------------------------- gates

  /** What `useAdminOnly` returns, with the navigation its effect asks for. */
  datatype AdminGate = AdminGate(isAdmin: bool, loading: bool, redirect: Option<string>)

  /** `useAdminOnly`: once loaded, strangers go to sign in and non-admins to the chat. */
  function AdminOnly(loading: bool, isAuthenticated: bool, isAdmin: bool): (g: AdminGate)
    ensures g.isAdmin == isAdmin && g.loading == loading
    ensures g.redirect.None? <==> loading || (isAuthenticated && isAdmin)
    ensures g.redirect == Some(SignInPath) <==> !loading && !isAuthenticated
    ensures g.redirect == Some(ChatPath) <==> !loading && isAuthenticated && !isAdmin
  {
    var redirect :=
      if loading then None
      else if !isAuthenticated then Some(SignInPath)
      else if !isAdmin then Some(ChatPath)
      else None;
    AdminGate(isAdmin, loading, redirect)
  }

  /** What `useRequireAuth` returns, with the navigation its effect asks for. */
  datatype AuthGate = AuthGate(
    user: Option<AuthService.AuthUser>,
    profile: Option<Profile>,
    loading: bool,
    isAdmin: bool,
    redirect: Option<string>)

  /**
   * `useRequireAuth(requireAdmin)`: once loaded, no user goes to sign in
   * whatever is required, and a non-admin where an admin is required goes to
   * the panel. An omitted `requireAdmin` is false.
   */
  function RequireAuth(requireAdmin: Option<bool>, user: Option<AuthService.AuthUser>, profile: Option<Profile>,
                       loading: bool, isAdmin: bool): (g: AuthGate)
    ensures g.user == user && g.profile == profile && g.loading == loading && g.isAdmin == isAdmin
    ensures g.redirect == Some(SignInPath) <==> !loading && user.None?
    ensures g.redirect == Some(PanelPath) <==> !loading && user.Some? && requireAdmin == Some(true) && !isAdmin
    ensures g.redirect.None? <==> loading || (user.Some? && (requireAdmin != Some(true) || isAdmin))
  {
    var required := requireAdmin.GetOr(false);
    var redirect :=
      if loading then None
      else if user.None? then Some(SignInPath)
      else if required && !isAdmin then Some(PanelPath)
      else None;
    AuthGate(user, profile, loading, isAdmin, redirect)
  }

  /** By default a signed-in user is never sent anywhere, admin or not. */
  lemma DefaultGateLetsUsersIn(user: AuthService.AuthUser, profile: Option<Profile>, loading: bool, isAdmin: bool)
    ensures RequireAuth(None, Some(user), profile, loading, isAdmin).redirect.None?
  {
  }

  /**
   * The two gates agree on visitors who are not signed in, and on admins; they
   * differ only on where a signed-in non-admin is sent.
   */
  lemma GatesAgreeExceptOnNonAdmins(user: Option<AuthService.AuthUser>, profile: Option<Profile>,
                                    loading: bool, isAdmin: bool)
    ensures user.None? || isAdmin ==>
      AdminOnly(loading, user.Some?, isAdmin).redirect == RequireAuth(Some(true), user, profile, loading, isAdmin).redirect
    ensures !loading && user.Some? && !isAdmin ==>
      && AdminOnly(loading, user.Some?, isAdmin).redirect == Some(ChatPath)
      && RequireAuth(Some(true), user, profile, loading, isAdmin).redirect == Some(PanelPath)
  {
  }
}
