/** The route guard of auth.config.ts: NextAuth's `authorized` callback, which
    middleware runs on every matched request, and the sign-in page it falls back
    to. The session and the request path are passed in explicitly. */
module AuthConfig {
  import opened Wrappers
  import opened JsStrings

  /** `pages.signIn`: where NextAuth sends a request the callback refused. */
  const SignInPage := "/login"

  /** The protected area, and where signed-in visitors elsewhere are sent. */
  const DashboardPath := "/dashboard"

  /** The user recorded in a session. */
  datatype SessionUser = SessionUser(name: Option<string>, email: Option<string>)

  /** `auth`: the current session; null when nobody signed in, and its user may
      be missing too. */
  datatype Session = Session(user: Option<SessionUser>)

  /** What the callback answers: `true`, `false`, or a `Response.redirect`. */
  datatype Decision = Allow | Deny | RedirectTo(location: string)

  /** `!!auth?.user`. */
  predicate IsLoggedIn(auth: Option<Session>) {
    auth.Some? && auth.value.user.Some?
  }

  /** `callbacks.authorized({ auth, request: { nextUrl } })`, on the path of
      `nextUrl`. Being on the dashboard means having "/dashboard" as a plain
      prefix of the path. */
  function Authorized(auth: Option<Session>, pathname: string): (d: Decision)
    ensures d == Allow <==> (DashboardPath <= pathname <==> IsLoggedIn(auth))
    ensures d == Deny <==> DashboardPath <= pathname && !IsLoggedIn(auth)
    ensures d.RedirectTo? <==> !(DashboardPath <= pathname) && IsLoggedIn(auth)
    ensures d.RedirectTo? ==> d.location == DashboardPath
  {
    StartsWithIsPrefix(pathname, DashboardPath);
    var isLoggedIn := IsLoggedIn(auth);
    var isOnDashboard := StartsWith(pathname, DashboardPath);
    if isOnDashboard then
      if isLoggedIn then Allow else Deny
    else if isLoggedIn then RedirectTo(DashboardPath)
    else Allow
  }

  /** The path the browser shows once the decision is carried out: the one it
      asked for, the sign-in page after a refusal, or the redirect target. */
  function Destination(d: Decision, pathname: string): string {
    match d
    case Allow => pathname
    case Deny => SignInPage
    case RedirectTo(location) => location
  }

  lemma SignInPageIsOutside()
    ensures !(DashboardPath <= SignInPage)
  {
    assert SignInPage[1] != DashboardPath[1];
  }

  /** Following the callback's answer once always lands on a page the same
      session is allowed to see: no refusal or redirect leads to another. */
  lemma {:induction false} NoRedirectLoop(auth: Option<Session>, pathname: string)
    ensures Authorized(auth, Destination(Authorized(auth, pathname), pathname)) == Allow
  {
    SignInPageIsOutside();
  }

  /** The prefix test admits "/dashboardX"; a signed-in visitor of any other
      page, the home page included, is sent to the dashboard. */
  lemma ExamplePaths(user: SessionUser)
    ensures Authorized(None, "/dashboardX") == Deny
    ensures Authorized(Some(Session(Some(user))), "/dashboardX") == Allow
    ensures Authorized(Some(Session(Some(user))), "/") == RedirectTo(DashboardPath)
    ensures Authorized(Some(Session(Some(user))), SignInPage) == RedirectTo(DashboardPath)
    ensures Authorized(Some(Session(None)), SignInPage) == Allow
  {
    assert "/dashboardX"[..|DashboardPath|] == DashboardPath;
    SignInPageIsOutside();
  }
}
