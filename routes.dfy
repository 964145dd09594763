/**
 * The static route table of src/router/index.js: seven records, each with a
 * path pattern, a unique name and access metadata, plus lookup by name and
 * resolution of a path to the record that matches it.
 */
module Routes {
  import opened Options
  import opened AuthProvider

  /**
   * A record's `meta` object. A flag the record leaves out reads as false; a
   * missing role as None. The title is display text only.
   */
  datatype Meta = Meta(requiresAuth: bool, hideForAuth: bool, role: Option<string>, title: string)

  datatype Route = Route(path: string, name: string, meta: Meta)

  const LOGIN: string := "login"
  const REGISTER: string := "register"
  const DOCTOR_DASHBOARD: string := "doctor-dashboard"
  const PATIENT_DASHBOARD: string := "patient-dashboard"
  const PROFILE: string := "profile"
  const UNAUTHORIZED: string := "unauthorized"
  const NOT_FOUND: string := "not-found"

  /** The catch-all pattern, which matches every path. */
  const CATCH_ALL: string := "/:pathMatch(.*)*"

  const LoginRoute: Route := Route("/", LOGIN, Meta(false, true, None, "Login"))
  const RegisterRoute: Route := Route("/register", REGISTER, Meta(false, true, None, "Register"))
  const DoctorDashboardRoute: Route :=
    Route("/doctor-dashboard", DOCTOR_DASHBOARD, Meta(true, false, Some(DOCTOR), "Doctor Dashboard"))
  const PatientDashboardRoute: Route :=
    Route("/patient-dashboard", PATIENT_DASHBOARD, Meta(true, false, Some(PATIENT), "Patient Dashboard"))
  const ProfileRoute: Route := Route("/profile", PROFILE, Meta(true, false, None, "Profile"))
  const UnauthorizedRoute: Route := Route("/unauthorized", UNAUTHORIZED, Meta(false, false, None, "Unauthorized"))
  const NotFoundRoute: Route := Route(CATCH_ALL, NOT_FOUND, Meta(false, false, None, "Page Not Found"))

  /** The records in declaration order; the catch-all comes last. */
  const Table: seq<Route> := [
    LoginRoute, RegisterRoute, DoctorDashboardRoute, PatientDashboardRoute,
    ProfileRoute, UnauthorizedRoute, NotFoundRoute
  ]

  /** JavaScript truthiness of `meta.role`: absent and the empty string are both false. */
  predicate Truthy(role: Option<string>) {
    role.Some? && role.value != ""
  }

  predicate DistinctNames(routes: seq<Route>) {
    forall i, j :: 0 <= i < j < |routes| ==> routes[i].name != routes[j].name
  }

  predicate DistinctPaths(routes: seq<Route>) {
    forall i, j :: 0 <= i < j < |routes| ==> routes[i].path != routes[j].path
  }

  /** Only the last record, if any, carries the catch-all pattern. */
  predicate CatchAllLast(routes: seq<Route>) {
    forall i :: 0 <= i < |routes| - 1 ==> routes[i].path != CATCH_ALL
  }

  /** The first record with the given name, as a named `next({ name })` reaches it. */
  function Lookup(routes: seq<Route>, name: string): (r: Option<Route>)
    ensures r.Some? ==> r.value in routes && r.value.name == name
    ensures r.None? ==> forall i :: 0 <= i < |routes| ==> routes[i].name != name
  {
    if routes == [] then None
    else if routes[0].name == name then Some(routes[0])
    else Lookup(routes[1..], name)
  }

  /** Whether a record's pattern matches a path: the catch-all matches all, a static path only itself. */
  predicate Matches(pattern: string, path: string) {
    pattern == CATCH_ALL || pattern == path
  }

  /** The first record whose pattern matches the path. */
  function Resolve(routes: seq<Route>, path: string): (r: Option<Route>)
    ensures r.Some? ==> r.value in routes && Matches(r.value.path, path)
    ensures r.None? ==> forall i :: 0 <= i < |routes| ==> !Matches(routes[i].path, path)
  {
    if routes == [] then None
    else if Matches(routes[0].path, path) then Some(routes[0])
    else Resolve(routes[1..], path)
  }

  /** On a table with unique names, looking a record's name up gives back that record. */
  lemma {:induction false} LookupFindsRoute(routes: seq<Route>, r: Route)
    requires DistinctNames(routes)
    requires r in routes
    ensures Lookup(routes, r.name) == Some(r)
  {
    if routes[0] != r {
      assert r in routes[1..];
      var k :| 0 <= k < |routes| && routes[k] == r;
      assert routes[0].name != r.name by {
        assert k > 0;
      }
      LookupFindsRoute(routes[1..], r);
    }
  }

  /**
   * On a table with unique paths and the catch-all last, every record's own
   * path resolves to that record (the catch-all's pattern included).
   */
  lemma {:induction false} ResolveFindsRoute(routes: seq<Route>, r: Route)
    requires DistinctPaths(routes) && CatchAllLast(routes)
    requires r in routes
    ensures Resolve(routes, r.path) == Some(r)
  {
    var k :| 0 <= k < |routes| && routes[k] == r;
    if k > 0 {
      assert routes[0].path != CATCH_ALL;
      assert routes[0].path != r.path;
      assert routes[1..][k - 1] == r;
      ResolveFindsRoute(routes[1..], r);
    }
  }

  /** On a table whose last record is the only catch-all, a path no static record carries resolves to it. */
  lemma {:induction false} ResolveFallsBack(routes: seq<Route>, path: string)
    requires CatchAllLast(routes) && |routes| > 0 && routes[|routes| - 1].path == CATCH_ALL
    requires forall q :: q in routes && q.path != CATCH_ALL ==> q.path != path
    ensures Resolve(routes, path) == Some(routes[|routes| - 1])
  {
    if |routes| > 1 {
      assert routes[0] in routes && routes[0].path != CATCH_ALL;
      ResolveFallsBack(routes[1..], path);
    }
  }

  /** The table's names and paths are unique and the catch-all is its last record. */
  lemma TableWellFormed()
    ensures |Table| == 7
    ensures DistinctNames(Table)
    ensures DistinctPaths(Table)
    ensures CatchAllLast(Table) && Table[|Table| - 1] == NotFoundRoute
  {
  }

  /** Access metadata of the table: who is hidden from signed-in users, who is gated, by which role. */
  lemma TableAccessPolicy()
    ensures forall r :: r in Table ==> (r.meta.hideForAuth <==> r.name == LOGIN || r.name == REGISTER)
    ensures forall r :: r in Table ==> !(r.meta.hideForAuth && r.meta.requiresAuth)
    ensures forall r :: r in Table ==>
      r.meta.role == (if r.name == DOCTOR_DASHBOARD then Some(DOCTOR)
                      else if r.name == PATIENT_DASHBOARD then Some(PATIENT)
                      else None)
    ensures forall r :: r in Table ==> (r.meta.requiresAuth <==> r.name in {DOCTOR_DASHBOARD, PATIENT_DASHBOARD, PROFILE})
    ensures forall r :: r in Table && r.meta.role.Some? ==> r.meta.requiresAuth && Truthy(r.meta.role)
  {
  }

  /** By name, each of the seven public route names reaches its record. */
  lemma TableLookup()
    ensures Lookup(Table, LOGIN) == Some(LoginRoute)
    ensures Lookup(Table, REGISTER) == Some(RegisterRoute)
    ensures Lookup(Table, DOCTOR_DASHBOARD) == Some(DoctorDashboardRoute)
    ensures Lookup(Table, PATIENT_DASHBOARD) == Some(PatientDashboardRoute)
    ensures Lookup(Table, PROFILE) == Some(ProfileRoute)
    ensures Lookup(Table, UNAUTHORIZED) == Some(UnauthorizedRoute)
    ensures Lookup(Table, NOT_FOUND) == Some(NotFoundRoute)
  {
    TableWellFormed();
    LookupFindsRoute(Table, LoginRoute);
    LookupFindsRoute(Table, RegisterRoute);
    LookupFindsRoute(Table, DoctorDashboardRoute);
    LookupFindsRoute(Table, PatientDashboardRoute);
    LookupFindsRoute(Table, ProfileRoute);
    LookupFindsRoute(Table, UnauthorizedRoute);
    LookupFindsRoute(Table, NotFoundRoute);
  }

  /** By path, each record answers its own pattern: the static records their path, the catch-all its own. */
  lemma TableResolve()
    ensures Resolve(Table, LoginRoute.path) == Some(LoginRoute)
    ensures Resolve(Table, RegisterRoute.path) == Some(RegisterRoute)
    ensures Resolve(Table, DoctorDashboardRoute.path) == Some(DoctorDashboardRoute)
    ensures Resolve(Table, PatientDashboardRoute.path) == Some(PatientDashboardRoute)
    ensures Resolve(Table, ProfileRoute.path) == Some(ProfileRoute)
    ensures Resolve(Table, UnauthorizedRoute.path) == Some(UnauthorizedRoute)
    ensures Resolve(Table, NotFoundRoute.path) == Some(NotFoundRoute)
  {
    TableWellFormed();
    ResolveFindsRoute(Table, LoginRoute);
    ResolveFindsRoute(Table, RegisterRoute);
    ResolveFindsRoute(Table, DoctorDashboardRoute);
    ResolveFindsRoute(Table, PatientDashboardRoute);
    ResolveFindsRoute(Table, ProfileRoute);
    ResolveFindsRoute(Table, UnauthorizedRoute);
    ResolveFindsRoute(Table, NotFoundRoute);
  }

  /** A path that no static record carries resolves to the catch-all record. */
  lemma TableResolveUnknown(path: string)
    requires path !in {LoginRoute.path, RegisterRoute.path, DoctorDashboardRoute.path,
                       PatientDashboardRoute.path, ProfileRoute.path, UnauthorizedRoute.path}
    ensures Resolve(Table, path) == Some(NotFoundRoute)
  {
    TableWellFormed();
    ResolveFallsBack(Table, path);
  }
}
