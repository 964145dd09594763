/**
 * The `router.beforeEach` guard of src/router/index.js as a pure function
 * from a snapshot of the backend's answers to the guard's decision.
 *
 * The guard body is an ordered cascade inside one `try`: session error,
 * pages hidden from signed-in users, pages that require a session, role
 * gates, and otherwise proceed. An exception escaping that body reaches the
 * outer `catch`, which redirects to the login page unless the navigation is
 * already going there, in which case it blocks.
 */
module RouterGuard {
  import opened Options
  import opened AuthProvider
  import opened Routes
  import opened Navigation

  /**
   * Everything the guard awaits during one run: the session lookup, whether
   * `signOut()` rejects, and the profile lookup (at most one runs per guard
   * call, and its answer does not depend on anything the guard chose).
   */
  datatype Snapshot = Snapshot(session: SessionLookup, signOutRejects: bool, profile: ProfileLookup)

  /** The decision passed to `next`, and whether the run called `signOut()`. */
  datatype Outcome = Outcome(decision: Decision, signedOut: bool)

  /** How the `try` block ends: by calling `next`, or by throwing to the outer `catch`. */
  datatype Attempt = Settled(outcome: Outcome) | Thrown(signedOut: bool)

  function ToName(name: string): Decision {
    Redirect(Named(name, None))
  }

  /** Where a signed-in user is sent from a page hidden from them: Doctors to their dashboard, everyone else to the patient one. */
  function SignedInHome(profile: ProfileLookup): (name: string)
    ensures name == DOCTOR_DASHBOARD <==> profile == Row(Some(DOCTOR))
    ensures name != DOCTOR_DASHBOARD ==> name == PATIENT_DASHBOARD
  {
    if Classify(ProfileRole(profile)) == Doctor then DOCTOR_DASHBOARD else PATIENT_DASHBOARD
  }

  /** Where a user whose role does not fit a gated page is sent: their own dashboard, or unauthorized. */
  function MismatchHome(role: Role): (name: string)
    ensures name == DOCTOR_DASHBOARD <==> role == Doctor
    ensures name == PATIENT_DASHBOARD <==> role == Patient
    ensures name == UNAUTHORIZED <==> role.Other?
  {
    match role
    case Doctor => DOCTOR_DASHBOARD
    case Patient => PATIENT_DASHBOARD
    case Other(_) => UNAUTHORIZED
  }

  /** The role gate for a page whose `meta.role` is `required`. */
  function RoleCheck(required: string, profile: ProfileLookup): (d: Decision)
    ensures d == Proceed <==> profile == Row(Some(required))
    ensures !profile.Row? ==> d == ToName(UNAUTHORIZED)
    ensures d.Redirect? ==> d.target.Named? && d.target.redirect.None?
  {
    match profile
    case Threw => ToName(UNAUTHORIZED)
    case QueryError => ToName(UNAUTHORIZED)
    case Row(role) =>
      if role != Some(required) then ToName(MismatchHome(Classify(role)))
      else Proceed
  }

  /** The body of the outer `try`. */
  function TryBlock(to: Destination, snap: Snapshot): (a: Attempt)
    ensures a.Thrown? <==> snap.session.Rejected? || (snap.session.error && snap.signOutRejects)
    ensures a.Thrown? ==> (a.signedOut <==> snap.session.Returned?)
    ensures a.Settled? ==> (a.outcome.signedOut <==> snap.session.error)
    ensures a.Settled? && a.outcome.decision.Redirect? ==> a.outcome.decision.target.Named?
    ensures a.Settled? ==> a.outcome.decision != Block
  {
    match snap.session
    case Rejected => Thrown(false)
    case Returned(session, error) =>
      if error then
        if snap.signOutRejects then Thrown(true)
        else Settled(Outcome(ToName(LOGIN), true))
      else
        var isAuthenticated := session.Some?;
        var meta := to.route.meta;
        if meta.hideForAuth && isAuthenticated then
          Settled(Outcome(ToName(SignedInHome(snap.profile)), false))
        else if meta.requiresAuth && !isAuthenticated then
          Settled(Outcome(Redirect(Named(LOGIN, Some(to.fullPath))), false))
        else if meta.requiresAuth && Truthy(meta.role) then
          Settled(Outcome(RoleCheck(meta.role.value, snap.profile), false))
        else
          Settled(Outcome(Proceed, false))
  }

  /** The outer `catch`: a safe redirect, except that the login page never redirects to itself. */
  function OnError(to: Destination): (d: Decision)
    ensures d == Block <==> to.route.name == LOGIN
    ensures d != Block ==> d == Redirect(Named(LOGIN, None))
  {
    if to.route.name != LOGIN then ToName(LOGIN) else Block
  }

  /** One run of the guard. */
  function Guard(to: Destination, snap: Snapshot): (o: Outcome)
    ensures o.decision == Block ==> to.route.name == LOGIN
    ensures o.decision.Redirect? ==> o.decision.target.Named?
    ensures o.signedOut ==> snap.session.Returned? && snap.session.error
  {
    match TryBlock(to, snap)
    case Settled(outcome) => outcome
    case Thrown(signedOut) => Outcome(OnError(to), signedOut)
  }

  /**
   * The independent statement of when the guard lets a navigation through:
   * the session lookup resolved without error, a signed-in user is not
   * heading for a page hidden from them, a page that requires a session has
   * one, and a role-gated page sees exactly its role in the profile row.
   */
  predicate Admissible(to: Destination, snap: Snapshot) {
    var meta := to.route.meta;
    && snap.session.Returned?
    && !snap.session.error
    && !(meta.hideForAuth && snap.session.session.Some?)
    && (meta.requiresAuth ==> snap.session.session.Some?)
    && (meta.requiresAuth && Truthy(meta.role) ==> snap.profile == Row(meta.role))
  }

  /** Whether this run has to look at the profile lookup at all. */
  predicate ProfileNeeded(to: Destination, session: SessionLookup) {
    && session.Returned?
    && !session.error
    && session.session.Some?
    && (to.route.meta.hideForAuth || (to.route.meta.requiresAuth && Truthy(to.route.meta.role)))
  }

  /** The guard never fails open, and proceeds whenever no check objects. */
  lemma ProceedsExactlyWhenAdmissible(to: Destination, snap: Snapshot)
    ensures Guard(to, snap).decision == Proceed <==> Admissible(to, snap)
    ensures Guard(to, snap).decision == Proceed ==> !Guard(to, snap).signedOut
  {
  }

  /** A session error signs out and sends to the login page, whatever the destination. */
  lemma SessionErrorSignsOut(to: Destination, snap: Snapshot)
    requires snap.session.Returned? && snap.session.error
    ensures Guard(to, snap).signedOut
    ensures !snap.signOutRejects ==> Guard(to, snap).decision == Redirect(Named(LOGIN, None))
    ensures snap.signOutRejects ==> Guard(to, snap).decision == OnError(to)
  {
  }

  /**
   * A page hidden from signed-in users never lets one through: it goes to the
   * doctor dashboard exactly when the profile row says "Doctor", and to the
   * patient dashboard for any other role, a missing role, a query error or a
   * thrown lookup.
   */
  lemma HideForAuthRedirectsHome(to: Destination, snap: Snapshot)
    requires to.route.meta.hideForAuth
    requires snap.session.Returned? && !snap.session.error && snap.session.session.Some?
    ensures Guard(to, snap).decision != Proceed
    ensures !Guard(to, snap).signedOut
    ensures Guard(to, snap).decision == Redirect(Named(DOCTOR_DASHBOARD, None)) <==> snap.profile == Row(Some(DOCTOR))
    ensures Guard(to, snap).decision == Redirect(Named(PATIENT_DASHBOARD, None)) <==> snap.profile != Row(Some(DOCTOR))
  {
  }

  /** A page that requires a session, reached without one, goes to login remembering the requested full path. */
  lemma RequiresAuthWithoutSession(to: Destination, snap: Snapshot)
    requires to.route.meta.requiresAuth
    requires snap.session == Returned(None, false)
    ensures Guard(to, snap) == Outcome(Redirect(Named(LOGIN, Some(to.fullPath))), false)
  {
  }

  /**
   * On a role-gated page with a session, the guard proceeds only when the row
   * carries exactly the page's role; lookup failures go to unauthorized, a
   * Doctor or Patient of the wrong kind to their own dashboard, any other role
   * to unauthorized.
   */
  lemma RoleGate(to: Destination, snap: Snapshot)
    requires to.route.meta.requiresAuth && !to.route.meta.hideForAuth && Truthy(to.route.meta.role)
    requires snap.session.Returned? && !snap.session.error && snap.session.session.Some?
    ensures Guard(to, snap).decision == Proceed <==> snap.profile == Row(to.route.meta.role)
    ensures snap.profile.QueryError? || snap.profile.Threw? ==>
      Guard(to, snap).decision == Redirect(Named(UNAUTHORIZED, None))
    ensures snap.profile.Row? && snap.profile.role != to.route.meta.role ==>
      Guard(to, snap).decision == Redirect(Named(
        if snap.profile.role == Some(DOCTOR) then DOCTOR_DASHBOARD
        else if snap.profile.role == Some(PATIENT) then PATIENT_DASHBOARD
        else UNAUTHORIZED, None))
  {
  }

  /** When the profile is not needed, its lookup has no bearing on the outcome. */
  lemma ProfileIrrelevant(to: Destination, snap: Snapshot, other: ProfileLookup)
    requires !ProfileNeeded(to, snap.session)
    ensures Guard(to, snap.(profile := other)) == Guard(to, snap)
  {
  }

  /** When the profile is needed, some answer of its lookup changes the decision. */
  lemma ProfileMatters(to: Destination, snap: Snapshot)
    requires ProfileNeeded(to, snap.session)
    ensures exists p :: Guard(to, snap.(profile := p)).decision != Guard(to, snap.(profile := Threw)).decision
  {
    var p := if to.route.meta.hideForAuth then Row(Some(DOCTOR)) else Row(to.route.meta.role);
    assert Guard(to, snap.(profile := p)).decision != Guard(to, snap.(profile := Threw)).decision;
  }

  /**
   * The outer `catch` never redirects the login page to itself: an exception
   * on the way to login blocks, on the way anywhere else it goes to login.
   */
  lemma OnErrorNeverLoops(to: Destination, snap: Snapshot)
    requires TryBlock(to, snap).Thrown?
    ensures to.route.name == LOGIN ==> Guard(to, snap).decision == Block
    ensures to.route.name != LOGIN ==> Guard(to, snap).decision == Redirect(Named(LOGIN, None))
  {
  }

  /** Blocking happens only on the way to login, after an exception. */
  lemma BlockOnlyAtLogin(to: Destination, snap: Snapshot)
    ensures Guard(to, snap).decision == Block <==> to.route.name == LOGIN && TryBlock(to, snap).Thrown?
  {
  }

  /**
   * The login page sends to login only on a reported session error: an
   * exception there blocks instead, and so does no other branch redirect it
   * to itself.
   */
  lemma LoginSelfRedirectOnlyOnSessionError(to: Destination, snap: Snapshot)
    requires to.route == LoginRoute
    requires Guard(to, snap).decision.Redirect?
    requires Guard(to, snap).decision.target.Named? && Guard(to, snap).decision.target.name == LOGIN
    ensures snap.session.Returned? && snap.session.error && !snap.signOutRejects
  {
  }

  /** Every redirect the guard issues names a record of the table, never a raw path. */
  lemma RedirectTargetsAreRoutes(to: Destination, snap: Snapshot)
    ensures Guard(to, snap).decision.Redirect? ==>
      Guard(to, snap).decision.target.Named? && Lookup(Table, Guard(to, snap).decision.target.name).Some?
  {
    var d := Guard(to, snap).decision;
    if d.Redirect? {
      assert d.target.Named?;
      var n := d.target.name;
      assert n == LOGIN || n == DOCTOR_DASHBOARD || n == PATIENT_DASHBOARD || n == UNAUTHORIZED;
      TableLookup();
    }
  }
}
