/**
 * Following the router guard's redirects through the route table. Each
 * redirect starts a new navigation on which the guard runs again; on a
 * snapshot that stays the same across runs this models the whole chain.
 */
module RedirectChain {
  import opened Options
  import opened AuthProvider
  import opened Routes
  import opened Navigation
  import opened RouterGuard

  /** The full path of a record reached with an optional `redirect` query (no URL encoding). */
  function FullPath(path: string, redirect: Option<string>): (p: string)
    ensures redirect.None? ==> p == path
    ensures |path| <= |p| && p[..|path|] == path
    ensures redirect.Some? ==> |p| > |path| + |redirect.value| && p[|p| - |redirect.value|..] == redirect.value
  {
    match redirect
    case None => path
    case Some(q) => path + "?redirect=" + q
  }

  /** The destination a redirect target stands for in the table, if any. */
  function LocationOf(t: Target): (d: Option<Destination>)
    ensures d.Some? ==> d.value.route in Table
    ensures t.Named? ==> (d.Some? <==> Lookup(Table, t.name).Some?)
  {
    match t
    case Named(name, redirect) =>
      (match Lookup(Table, name)
       case None => None
       case Some(r) => Some(Destination(r, FullPath(r.path, redirect))))
    case Path(path) =>
      match Resolve(Table, path)
      case None => None
      case Some(r) => Some(Destination(r, path))
  }

  /**
   * Runs the guard at most `fuel` times, following each redirect; the
   * destination where it finally proceeds, or None if it blocks, leaves the
   * table, or is still redirecting when the fuel is spent.
   */
  function Follow(to: Destination, snap: Snapshot, fuel: nat): (landing: Option<Destination>)
    ensures landing.Some? ==> Guard(landing.value, snap).decision == Proceed
    ensures landing.Some? ==> Admissible(landing.value, snap)
    decreases fuel
  {
    if fuel == 0 then None
    else
      match Guard(to, snap).decision
      case Proceed =>
        ProceedsExactlyWhenAdmissible(to, snap);
        Some(to)
      case Block => None
      case Redirect(t) =>
        match LocationOf(t)
        case None => None
        case Some(next) => Follow(next, snap, fuel - 1)
  }

  /** A snapshot on which no run reports a session error or throws to the outer `catch`. */
  predicate Clean(snap: Snapshot) {
    snap.session.Returned? && !snap.session.error
  }

  /** A named redirect to a record of the table reaches that record. */
  lemma LocationOfRoute(r: Route, redirect: Option<string>)
    requires r in Table
    ensures LocationOf(Named(r.name, redirect)) == Some(Destination(r, FullPath(r.path, redirect)))
  {
    TableWellFormed();
    LookupFindsRoute(Table, r);
  }

  /** One step of a chain: a run that redirects hands the rest of the fuel to the redirect's destination. */
  lemma FollowRedirect(to: Destination, snap: Snapshot, fuel: nat, next: Destination)
    requires fuel > 0
    requires Guard(to, snap).decision.Redirect?
    requires LocationOf(Guard(to, snap).decision.target) == Some(next)
    ensures Follow(to, snap, fuel) == Follow(next, snap, fuel - 1)
  {
  }

  /** A run that proceeds ends the chain where it is. */
  lemma FollowProceed(to: Destination, snap: Snapshot, fuel: nat)
    requires fuel > 0
    requires Guard(to, snap).decision == Proceed
    ensures Follow(to, snap, fuel) == Some(to)
  {
  }

  /** On a clean snapshot the guard proceeds at these three pages, whatever the profile says. */
  lemma ProceedsAtSafePages(snap: Snapshot, fullPath: string)
    requires Clean(snap)
    ensures snap.session.session.None? ==> Guard(Destination(LoginRoute, fullPath), snap).decision == Proceed
    ensures Guard(Destination(UnauthorizedRoute, fullPath), snap).decision == Proceed
    ensures Guard(Destination(NotFoundRoute, fullPath), snap).decision == Proceed
  {
  }

  /** From the unauthorized page a clean chain ends at once. */
  lemma UnauthorizedSettles(snap: Snapshot, fuel: nat)
    requires Clean(snap) && fuel > 0
    ensures Follow(Destination(UnauthorizedRoute, UnauthorizedRoute.path), snap, fuel).Some?
  {
    ProceedsAtSafePages(snap, UnauthorizedRoute.path);
    FollowProceed(Destination(UnauthorizedRoute, UnauthorizedRoute.path), snap, fuel);
  }

  /**
   * A dashboard reached with a session settles within two runs: there, at the
   * user's own dashboard, or at the unauthorized page.
   */
  lemma DashboardSettles(r: Route, snap: Snapshot)
    requires r == DoctorDashboardRoute || r == PatientDashboardRoute
    requires Clean(snap) && snap.session.session.Some?
    ensures var landing := Follow(Destination(r, r.path), snap, 2);
      && landing.Some?
      && (|| landing.value.route == UnauthorizedRoute
          || (&& landing.value.route in {DoctorDashboardRoute, PatientDashboardRoute}
              && snap.profile == Row(landing.value.route.meta.role)))
  {
    var here := Destination(r, r.path);
    var d := Guard(here, snap).decision;
    if d == Proceed {
      FollowProceed(here, snap, 2);
    } else {
      RoleGate(here, snap);
      assert d.Redirect? && d.target.redirect.None?;
      var n := d.target.name;
      if n == UNAUTHORIZED {
        LocationOfRoute(UnauthorizedRoute, None);
        FollowRedirect(here, snap, 2, Destination(UnauthorizedRoute, UnauthorizedRoute.path));
        UnauthorizedSettles(snap, 1);
        ProceedsAtSafePages(snap, UnauthorizedRoute.path);
        FollowProceed(Destination(UnauthorizedRoute, UnauthorizedRoute.path), snap, 1);
      } else {
        var home := if n == DOCTOR_DASHBOARD then DoctorDashboardRoute else PatientDashboardRoute;
        assert n == home.name;
        assert snap.profile == Row(home.meta.role);
        var there := Destination(home, home.path);
        LocationOfRoute(home, None);
        FollowRedirect(here, snap, 2, there);
        RoleGate(there, snap);
        FollowProceed(there, snap, 1);
      }
    }
  }

  /**
   * Redirect chains end: from any record of the table, on a clean snapshot,
   * the guard proceeds within three runs, that is, at most two redirects.
   */
  lemma ChainTerminates(to: Destination, snap: Snapshot)
    requires to.route in Table
    requires Clean(snap)
    ensures Follow(to, snap, 3).Some?
  {
    var d := Guard(to, snap).decision;
    if d == Proceed {
      FollowProceed(to, snap, 3);
    } else {
      assert d.Redirect? && d.target.Named?;
      var n := d.target.name;
      if n == LOGIN {
        // only a page that requires a session, reached without one, redirects to login here
        var next := Destination(LoginRoute, FullPath(LoginRoute.path, d.target.redirect));
        LocationOfRoute(LoginRoute, d.target.redirect);
        FollowRedirect(to, snap, 3, next);
        ProceedsAtSafePages(snap, next.fullPath);
        FollowProceed(next, snap, 2);
      } else if n == UNAUTHORIZED {
        assert d.target.redirect.None?;
        LocationOfRoute(UnauthorizedRoute, None);
        FollowRedirect(to, snap, 3, Destination(UnauthorizedRoute, UnauthorizedRoute.path));
        UnauthorizedSettles(snap, 2);
      } else {
        assert d.target.redirect.None?;
        assert n == DOCTOR_DASHBOARD || n == PATIENT_DASHBOARD;
        var home := if n == DOCTOR_DASHBOARD then DoctorDashboardRoute else PatientDashboardRoute;
        LocationOfRoute(home, None);
        FollowRedirect(to, snap, 3, Destination(home, home.path));
        DashboardSettles(home, snap);
      }
    }
  }

  /** A role that is neither Doctor nor Patient, at login, uses all three runs: login, patient dashboard, unauthorized. */
  lemma UnknownRoleTakesTwoRedirects()
    ensures var snap := Snapshot(Returned(Some("u1"), false), false, Row(Some("Nurse")));
      && Follow(Destination(LoginRoute, "/"), snap, 2) == None
      && Follow(Destination(LoginRoute, "/"), snap, 3) == Some(Destination(UnauthorizedRoute, "/unauthorized"))
  {
    var snap := Snapshot(Returned(Some("u1"), false), false, Row(Some("Nurse")));
    var login := Destination(LoginRoute, "/");
    var patient := Destination(PatientDashboardRoute, "/patient-dashboard");
    var unauthorized := Destination(UnauthorizedRoute, "/unauthorized");
    LocationOfRoute(PatientDashboardRoute, None);
    LocationOfRoute(UnauthorizedRoute, None);
    FollowRedirect(login, snap, 2, patient);
    FollowRedirect(login, snap, 3, patient);
    assert Guard(patient, snap).decision == Redirect(Named(UNAUTHORIZED, None));
    FollowRedirect(patient, snap, 1, unauthorized);
    FollowRedirect(patient, snap, 2, unauthorized);
    ProceedsAtSafePages(snap, "/unauthorized");
    FollowProceed(unauthorized, snap, 1);
  }

  /**
   * Outside clean snapshots chains need not end: a session error that every
   * run reports keeps sending the login page to itself, so termination there
   * rests on `signOut()` clearing the error for the next run.
   */
  lemma {:induction false} SessionErrorAtLoginNeverSettles(fullPath: string, snap: Snapshot, fuel: nat)
    requires snap.session.Returned? && snap.session.error && !snap.signOutRejects
    ensures Follow(Destination(LoginRoute, fullPath), snap, fuel) == None
    decreases fuel
  {
    if fuel > 0 {
      LocationOfRoute(LoginRoute, None);
      FollowRedirect(Destination(LoginRoute, fullPath), snap, fuel, Destination(LoginRoute, "/"));
      SessionErrorAtLoginNeverSettles("/", snap, fuel - 1);
    }
  }
}
