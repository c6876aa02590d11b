/** The edge middleware that guards the dashboard: a visitor without a
    session token is sent to the login page, which remembers where they were
    going, and a signed-in visitor is sent from the login and registration
    pages to the dashboard. The session lookup is a parameter. */
module Middleware {
  import opened JsText

  const Dashboard: string := "/dashboard"
  const Login: string := "/login"
  const Register: string := "/register"

  /** Let the request through, or redirect it to `path`, with the
      `callbackUrl` query parameter when it is set. */
  datatype Decision = Next | Redirect(path: string, callbackUrl: Option<string>)

  /** `middleware`, given the request's path and whether a session token was
      found. */
  function Decide(pathname: string, signedIn: bool): Decision {
    if StartsWith(pathname, Dashboard) then
      if !signedIn then Redirect(Login, Some(pathname)) else Next
    else if pathname == Login || pathname == Register then
      if signedIn then Redirect(Dashboard, None) else Next
    else Next
  }

  /** The matcher: `/dashboard/:path*`, `/login` and `/register`. */
  predicate Matched(pathname: string) {
    || pathname == Dashboard
    || StartsWith(pathname, Dashboard + "/")
    || pathname == Login
    || pathname == Register
  }

  /** What a request meets: the middleware on matched paths, nothing else. */
  function Handle(pathname: string, signedIn: bool): Decision {
    if Matched(pathname) then Decide(pathname, signedIn) else Next
  }

  /** Dashboard pages are served exactly to signed-in visitors; anyone else
      goes to the login page with the page they asked for as callback. */
  lemma DashboardNeedsToken(pathname: string, signedIn: bool)
    requires StartsWith(pathname, Dashboard)
    ensures Decide(pathname, signedIn) == Next <==> signedIn
    ensures !signedIn ==> Decide(pathname, signedIn) == Redirect(Login, Some(pathname))
  {
  }

  /** The login and registration pages are served exactly to visitors
      without a token; signed-in visitors go to the dashboard. */
  lemma AuthPagesForGuests(pathname: string, signedIn: bool)
    requires pathname == Login || pathname == Register
    ensures Decide(pathname, signedIn) == Next <==> !signedIn
    ensures signedIn ==> Decide(pathname, signedIn) == Redirect(Dashboard, None)
  {
  }

  /** Every other path passes, signed in or not. */
  lemma OtherPathsPass(pathname: string, signedIn: bool)
    requires !StartsWith(pathname, Dashboard) && pathname != Login && pathname != Register
    ensures Decide(pathname, signedIn) == Next && Handle(pathname, signedIn) == Next
  {
  }

  /** A redirect never points back at the page asked for, and its target is
      a matched page that lets the same visitor through: no redirect loop. */
  lemma {:induction false} NoRedirectLoop(pathname: string, signedIn: bool)
    ensures var d := Decide(pathname, signedIn);
      d.Redirect? ==> d.path != pathname && Matched(d.path) && Decide(d.path, signedIn) == Next
  {
    var d := Decide(pathname, signedIn);
    if d.Redirect? {
      assert !StartsWith(Login, Dashboard) by { assert |Login| < |Dashboard|; }
      assert StartsWith(Dashboard, Dashboard);
      if d.path == Login {
        assert StartsWith(pathname, Dashboard) && pathname != Login;
      }
    }
  }

  /** The matcher only narrows the middleware on paths that merely start
      with "/dashboard" (such as "/dashboards"): there a guest is let through
      where the function alone would redirect. */
  lemma {:induction false} MatcherNarrowsDashboard(pathname: string, signedIn: bool)
    ensures Matched(pathname) || !StartsWith(pathname, Dashboard) || signedIn ==>
      Handle(pathname, signedIn) == Decide(pathname, signedIn)
    ensures Decide("/dashboards", false) == Redirect(Login, Some("/dashboards"))
    ensures Handle("/dashboards", false) == Next
  {
    if !Matched(pathname) && !StartsWith(pathname, Dashboard) {
      assert pathname != Login && pathname != Register;
    }
    assert StartsWith("/dashboards", Dashboard);
    assert !StartsWith("/dashboards", Dashboard + "/") by { assert "/dashboards"[10] != '/'; }
  }
}
