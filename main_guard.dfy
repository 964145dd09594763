/**
 * The second `router.beforeEach` guard, registered in src/main.js: a page
 * requires a session when any record it matched says so, and such a page
 * proceeds only with a session and no reported error; otherwise the guard
 * redirects to a login path.
 */
module MainGuard {
  import opened Options
  import opened AuthProvider
  import opened Routes
  import opened Navigation
  import RouterGuard

  /** `to.matched.some((record) => record.meta.requiresAuth)`. */
  function AnyRequiresAuth(matched: seq<Route>): (r: bool)
    ensures r <==> exists i :: 0 <= i < |matched| && matched[i].meta.requiresAuth
  {
    if matched == [] then false
    else if matched[0].meta.requiresAuth then true
    else
      var rest := AnyRequiresAuth(matched[1..]);
      assert rest ==> exists i :: 0 <= i < |matched| && matched[i].meta.requiresAuth by {
        if rest {
          var j :| 0 <= j < |matched| - 1 && matched[1..][j].meta.requiresAuth;
          assert matched[j + 1].meta.requiresAuth;
        }
      }
      assert !rest ==> forall i :: 0 <= i < |matched| ==> !matched[i].meta.requiresAuth by {
        if !rest {
          forall i | 0 <= i < |matched|
            ensures !matched[i].meta.requiresAuth
          {
            if i > 0 {
              assert matched[i] == matched[1..][i - 1];
            }
          }
        }
      }
      rest
  }

  /** The guard's decision, given the path it sends visitors without a valid session to. */
  function CheckSession(matched: seq<Route>, session: SessionLookup, loginPath: string): (d: Decision)
    ensures d == Proceed || d == Redirect(Path(loginPath))
    ensures d == Proceed <==>
      !AnyRequiresAuth(matched) || (session.Returned? && session.session.Some? && !session.error)
  {
    if AnyRequiresAuth(matched) then
      match session
      case Rejected => Redirect(Path(loginPath))
      case Returned(s, error) =>
        if s.Some? && !error then Proceed else Redirect(Path(loginPath))
    else
      Proceed
  }

  /** The path the source passes to `next` for a visitor without a valid session. */
  const LOGIN_PATH_AS_WRITTEN: string := "/login"

  /**
   * The guard as written: the login redirect uses the path "/login", which no
   * static record of the table carries, so it resolves to the catch-all
   * not-found record rather than the login page (whose path is "/").
   */
  function SessionGuardAsWritten(matched: seq<Route>, session: SessionLookup): (d: Decision)
    ensures d.Redirect? ==> d.target == Path(LOGIN_PATH_AS_WRITTEN)
    ensures d.Redirect? ==> Resolve(Table, d.target.path) == Some(NotFoundRoute)
  {
    TableResolveUnknown(LOGIN_PATH_AS_WRITTEN);
    CheckSession(matched, session, LOGIN_PATH_AS_WRITTEN)
  }

  /** The guard with the redirect sent to the login record's own path, as its comment intends. */
  function SessionGuard(matched: seq<Route>, session: SessionLookup): (d: Decision)
    ensures d.Redirect? ==> d.target.Path? && Resolve(Table, d.target.path) == Some(LoginRoute)
  {
    TableResolve();
    CheckSession(matched, session, LoginRoute.path)
  }

  /** A page that nothing it matched marks as protected proceeds, and the session is not consulted. */
  lemma PublicPagesProceed(matched: seq<Route>, session: SessionLookup, loginPath: string)
    requires forall i :: 0 <= i < |matched| ==> !matched[i].meta.requiresAuth
    ensures CheckSession(matched, session, loginPath) == Proceed
  {
  }

  /**
   * A protected page proceeds exactly when the lookup resolved with a session
   * and no error; a lookup that throws, reports an error or finds no session
   * redirects to the login path.
   */
  lemma ProtectedPages(matched: seq<Route>, session: SessionLookup, loginPath: string)
    requires exists i :: 0 <= i < |matched| && matched[i].meta.requiresAuth
    ensures CheckSession(matched, session, loginPath) == Proceed <==>
      session.Returned? && session.session.Some? && !session.error
    ensures CheckSession(matched, session, loginPath) != Proceed ==>
      CheckSession(matched, session, loginPath) == Redirect(Path(loginPath))
    ensures session.Rejected? ==> CheckSession(matched, session, loginPath) == Redirect(Path(loginPath))
  {
  }

  /**
   * With the redirect as written, a visitor without a session asking for the
   * profile page is sent to "/login", which lands on the not-found page, and
   * the router guard lets that page through.
   */
  lemma AsWrittenRedirectMissesLogin()
    ensures var d := SessionGuardAsWritten([ProfileRoute], Returned(None, false));
      && d == Redirect(Path("/login"))
      && Resolve(Table, d.target.path) == Some(NotFoundRoute)
      && NotFoundRoute != LoginRoute
      && RouterGuard.Guard(Destination(NotFoundRoute, d.target.path),
                           RouterGuard.Snapshot(Returned(None, false), false, QueryError)).decision == Proceed
  {
  }

  /**
   * With the redirect corrected, a visitor without a session asking for any
   * protected page lands on the login page, and the router guard lets them
   * see it.
   */
  lemma CorrectedRedirectReachesLogin(matched: seq<Route>, snap: RouterGuard.Snapshot)
    requires AnyRequiresAuth(matched)
    requires snap.session == Returned(None, false)
    ensures SessionGuard(matched, snap.session) == Redirect(Path(LoginRoute.path))
    ensures RouterGuard.Guard(Destination(LoginRoute, LoginRoute.path), snap).decision == Proceed
  {
  }

  /**
   * On the same session answer the two guards never disagree against a
   * navigation: whenever the router guard lets a table route through, so
   * does this one, given that route as the matched record.
   */
  lemma GuardsAgree(to: Destination, snap: RouterGuard.Snapshot)
    requires RouterGuard.Guard(to, snap).decision == Proceed
    ensures SessionGuard([to.route], snap.session) == Proceed
    ensures SessionGuardAsWritten([to.route], snap.session) == Proceed
  {
    RouterGuard.ProceedsExactlyWhenAdmissible(to, snap);
  }
}
