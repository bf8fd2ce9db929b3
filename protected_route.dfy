/** The route guard (ProtectedRoute.jsx) in front of the signed-in pages. */
module RouteGuard {
  import opened Routing
  import opened LoginPage

  /** What the guard renders: the spinner, a redirect, or the guarded content */
  datatype GuardOutcome<T> = Spinner | Redirect(nav: Navigation) | Render(content: T)

  /** While the session is loading the spinner is shown whatever the
      authentication; afterwards a visitor is sent to the login page, with the
      current location as `from` and the history entry replaced, and a
      signed-in user gets the content unchanged */
  function Guard<T>(loading: bool, isAuthenticated: bool, location: Location, children: T): (o: GuardOutcome<T>)
    ensures o.Spinner? <==> loading
    ensures o.Redirect? <==> !loading && !isAuthenticated
    ensures o.Render? <==> !loading && isAuthenticated
    ensures o.Redirect? ==> o.nav.to == "/login" && o.nav.replace && o.nav.state == FromLocation(location)
    ensures o.Render? ==> o.content == children
  {
    if loading then Spinner
    else if !isAuthenticated then Redirect(Navigation("/login", FromLocation(location), true))
    else Render(children)
  }

  /** A visitor turned away from a page with a path is sent back to that page
      by the login form's own navigation after signing in (the session's
      welcome navigation to "/" follows a second later) */
  lemma GuardRedirectReturns<T>(location: Location, children: T)
    requires location.pathname != ""
    ensures var o := Guard(false, false, location, children);
      o.Redirect? && RedirectTarget(o.nav.state) == location.pathname
  {
  }
}
