# Care_link navigation guards, modelled in Dafny

This project models the access control of the clinic dashboard's single-page
client. Before every route change, a guard decides whether the user may see
the destination. The decision depends on three things: the destination
record's metadata, the session the authentication backend reports, and the
role stored in the user's profile row. There are two such guards:

- the `router.beforeEach` guard of `src/router/index.js`, together with the
  static route table it reads (seven records: `login`, `register`,
  `doctor-dashboard`, `patient-dashboard`, `profile`, `unauthorized`,
  `not-found`);
- a smaller `router.beforeEach` guard registered in `src/main.js`, which only
  checks that a protected page has a valid session.

Both guards are pure cascades of checks on the awaited answers, so each one
is a Dafny function from a snapshot of those answers to a decision:
`Proceed` (`next()`), `Redirect(target)` (`next({ name, query })` or
`next(path)`) or `Block` (`next(false)`). The router guard also reports
whether it called `signOut()`.

Modules, one per component:

- `Options` (options.dfy): the optional value used for null or undefined fields.
- `AuthProvider` (auth_provider.dfy): the backend's answers as input
  datatypes. The session lookup either resolves (with a session or none, and
  an error flag) or rejects. The profile lookup yields a row whose role may
  be null, a query error, or a thrown exception. The module also holds the
  closed role set `Doctor | Patient | Other`, read with the source's strict
  string comparisons.
- `Routes` (routes.dfy): the route table, lookup by name, and resolution of
  a path to the first record whose pattern matches (a static path matches
  only itself; the catch-all matches everything).
- `Navigation` (navigation.dfy): the destination (`to`) and the decision types.
- `RouterGuard` (router_guard.dfy): the `try` block (`TryBlock`), the outer
  `catch` (`OnError`), their composition `Guard`, and the properties proved
  about them. `Admissible` is an independent, declarative statement of when
  navigation may go ahead.
- `RedirectChain` (redirect_chain.dfy): follows the guard's redirects through
  the table while the snapshot stays fixed, and proves that such chains end.
- `MainGuard` (main_guard.dfy): the `src/main.js` guard, as written and corrected.

The guards are functions of their inputs. So running one twice on the same
snapshot gives the same decision by construction, and no lemma states it.

Two points where the code's error paths are narrower than a quick reading suggests, and which the model follows:

- A rejected `getSession()` goes to the outer `catch`. That means a redirect
  to login, or `Block` when already going to login, and no sign-out. Only an
  error that the lookup reports leads to sign-out followed by a redirect to
  login.
- If `signOut()` itself rejects, the exception also reaches the outer `catch`.

## Model

| member | source | states |
|---|---|---|
| `AuthProvider.ProfileRole` | src/router/index.js:152-164 | `profile?.role` has a value only when the lookup produced a row, and then it is that row's role |
| `AuthProvider.Classify` | src/router/index.js:164-172 | a raw role is `Doctor` exactly when it is the string "Doctor", `Patient` exactly when it is "Patient", and otherwise `Other` carrying the raw value |
| `AuthProvider.ClassifyRoundTrip` | src/router/index.js:164-172 | classifying a raw role loses nothing: its name gives the raw value back, and the result is canonical |
| `AuthProvider.RoleNameRoundTrip` | src/router/index.js:164-172 | every canonical role is the classification of its own name |
| `Routes.Matches` | src/router/index.js:6-75 | a static pattern matches only itself and the catch-all pattern matches every path; its meaning in the table is stated by `Routes.Resolve`, `Routes.TableResolve` and `Routes.TableResolveUnknown` |
| `Routes.Lookup` | src/router/index.js:6-75 | a name lookup returns a record of the table with that name, and returns none only when no record has the name |
| `Routes.Resolve` | src/router/index.js:6-75 | a path resolves to a record whose pattern matches it, and to none only when no pattern matches |
| `Routes.LookupFindsRoute` | src/router/index.js:6-75 | on a table with unique names, looking up a record's name gives back that record |
| `Routes.ResolveFindsRoute` | src/router/index.js:6-75 | on a table with unique paths and the catch-all last, every record's path resolves to that record |
| `Routes.ResolveFallsBack` | src/router/index.js:65-74 | a path that no static record carries resolves to the trailing catch-all record |
| `Routes.TableWellFormed` | src/router/index.js:6-75 | the table has seven records with distinct names and distinct paths, and the catch-all `not-found` record is last |
| `Routes.TableAccessPolicy` | src/router/index.js:6-75 | only `login` and `register` are hidden from signed-in users; no record is both hidden and protected; only the two dashboards carry a role, "Doctor" and "Patient" respectively; exactly the dashboards and `profile` require a session |
| `Routes.TableLookup` | src/router/index.js:6-75 | each of the seven public route names reaches its own record |
| `Routes.TableResolve` | src/router/index.js:6-75 | each static path resolves to its own record, and the catch-all pattern to the `not-found` record |
| `Routes.TableResolveUnknown` | src/router/index.js:65-74 | any other path resolves to the `not-found` record |
| `RouterGuard.SignedInHome` | src/router/index.js:119-134 | the page a signed-in user is sent to from `login`/`register`: `doctor-dashboard` exactly when the profile lookup produced a row whose role is "Doctor", and `patient-dashboard` otherwise |
| `RouterGuard.MismatchHome` | src/router/index.js:164-173 | the page for a role that does not fit a gated page: `doctor-dashboard` exactly for a Doctor, `patient-dashboard` exactly for a Patient, `unauthorized` exactly for any other role |
| `RouterGuard.RoleCheck` | src/router/index.js:150-179 | the role gate proceeds exactly when the lookup produced a row with the required role; a query error or thrown lookup goes to `unauthorized`; every redirect is by name with no query |
| `RouterGuard.TryBlock` | src/router/index.js:93-184 | the `try` body throws exactly when the session lookup rejects or `signOut()` rejects after a reported error, and has signed out exactly when the lookup resolved; otherwise it settles, has signed out exactly on a reported error, never blocks and redirects only by name |
| `RouterGuard.OnError` | src/router/index.js:185-205 | the outer `catch` blocks exactly when the destination is `login`, and otherwise redirects to `login` with no query |
| `RouterGuard.Guard` | src/router/index.js:92-206 | one run of the guard: it blocks only on the way to `login`, redirects only by name, and signs out only on a reported session error; when it proceeds is stated by `RouterGuard.ProceedsExactlyWhenAdmissible` |
| `RouterGuard.Admissible` | src/router/index.js:100-184 | the declarative condition for letting a navigation through; `RouterGuard.ProceedsExactlyWhenAdmissible` proves the guard proceeds exactly when it holds |
| `RouterGuard.ProceedsExactlyWhenAdmissible` | src/router/index.js:92-184 | the guard proceeds if and only if the session lookup resolved without error, a signed-in user is not heading for a hidden page, a protected page has a session, and a role-gated page's profile row carries exactly its role; a run that proceeds never signs out |
| `RouterGuard.SessionErrorSignsOut` | src/router/index.js:100-106 | a reported session error always calls `signOut()`; for every destination it then redirects to `login` with no query, or, when `signOut()` rejects, takes the outer `catch` decision |
| `RouterGuard.HideForAuthRedirectsHome` | src/router/index.js:117-135 | a hidden page with a session never proceeds; it goes to `doctor-dashboard` exactly when the row's role is "Doctor", and to `patient-dashboard` for any other role, a null role, a query error or a thrown lookup |
| `RouterGuard.RequiresAuthWithoutSession` | src/router/index.js:139-147 | a protected page reached without a session redirects to `login` with the `redirect` query set to the requested full path, and does not sign out |
| `RouterGuard.RoleGate` | src/router/index.js:150-179 | a role-gated page with a session proceeds exactly when the row carries the page's role; a query error or thrown lookup goes to `unauthorized`; a mismatched "Doctor" goes to `doctor-dashboard`, a mismatched "Patient" to `patient-dashboard`, and any other role to `unauthorized` |
| `RouterGuard.ProfileIrrelevant` | src/router/index.js:117-184 | unless the session lookup resolved with a session and no error and the page is hidden, or protected and role-gated, the profile lookup's answer does not change the outcome |
| `RouterGuard.ProfileMatters` | src/router/index.js:117-179 | with a session on a hidden or role-gated page, some answer of the profile lookup changes the decision |
| `RouterGuard.OnErrorNeverLoops` | src/router/index.js:185-204 | after an exception, the guard blocks when going to `login` and redirects to `login` otherwise |
| `RouterGuard.BlockOnlyAtLogin` | src/router/index.js:185-204 | the guard blocks if and only if the destination is `login` and the `try` block threw |
| `RouterGuard.LoginSelfRedirectOnlyOnSessionError` | src/router/index.js:100-106 | the `login` record is redirected to `login` (with or without a query) only when a session error is reported and `signOut()` succeeds |
| `RouterGuard.RedirectTargetsAreRoutes` | src/router/index.js:92-206 | every redirect the guard issues is by name, and the name belongs to a record of the table |
| `RedirectChain.FullPath` | src/router/index.js:142-145 | with no `redirect` query, the full path is the record's path; with one, it is strictly longer than the path and the query, starts with the path and ends with the query |
| `RedirectChain.LocationOf` | src/router/index.js:6-75 | a redirect target leads to a record of the table; a named target does so exactly when the table has that name |
| `RedirectChain.LocationOfRoute` | src/router/index.js:6-75 | a named redirect to a table record reaches that record, with the full path built from its path and query |
| `RedirectChain.Follow` | src/router/index.js:92-206 | a chain of guard runs that ends does so at a destination where the guard proceeds, which is therefore admissible |
| `RedirectChain.ProceedsAtSafePages` | src/router/index.js:56-74 | on a snapshot with no session error, `unauthorized` and `not-found` always proceed, and `login` proceeds without a session |
| `RedirectChain.DashboardSettles` | src/router/index.js:150-179 | a dashboard reached with a session settles within two runs, either at `unauthorized` or at the dashboard whose role is exactly the one in the profile row (which may be the dashboard it started from) |
| `RedirectChain.ChainTerminates` | src/router/index.js:92-206 | on a fixed snapshot with no session error and nothing thrown, every navigation to a table record settles within three guard runs, that is, after at most two redirects |
| `RedirectChain.UnknownRoleTakesTwoRedirects` | src/router/index.js:117-179 | a session whose role is neither Doctor nor Patient, at `login`, has not settled after two runs and settles at `unauthorized` on the third (`login` to `patient-dashboard` to `unauthorized`) |
| `RedirectChain.SessionErrorAtLoginNeverSettles` | src/router/index.js:100-106 | a session error reported on every run sends `login` to itself forever, so the chain only ends because `signOut()` clears the error |
| `MainGuard.AnyRequiresAuth` | src/main.js:33 | true exactly when some matched record has `meta.requiresAuth` set |
| `MainGuard.PublicPagesProceed` | src/main.js:54-57 | a destination that no matched record protects proceeds, whatever the session lookup says |
| `MainGuard.ProtectedPages` | src/main.js:35-53 | a protected destination proceeds exactly when the lookup resolved with a session and no error; otherwise, including when the lookup throws, it redirects to the login path |
| `MainGuard.CheckSession` | src/main.js:31-58 | for a given login path, the guard either proceeds or redirects to that path, and it proceeds exactly when no matched record requires a session or the lookup resolved with a session and no error |
| `MainGuard.SessionGuardAsWritten` | src/main.js:31-58 | as written, every redirect goes to the path "/login", and that path resolves to the `not-found` record |
| `MainGuard.SessionGuard` | src/main.js:43-53 | corrected, every redirect goes to a path that resolves to the `login` record |
| `MainGuard.AsWrittenRedirectMissesLogin` | src/main.js:48 | a visitor without a session asking for `profile` is sent to "/login", lands on `not-found`, and the router guard lets that page through |
| `MainGuard.CorrectedRedirectReachesLogin` | src/main.js:47-48 | corrected, a visitor without a session on any protected page is sent to the login record's path, and the router guard lets them in there |
| `MainGuard.GuardsAgree` | src/main.js:31-58 | whenever the router guard lets a table record through, the `src/main.js` guard, both as written and corrected, lets it through too, given the same session answer and that record as the match |

## Findings

| source | as written | input that shows it | evidently intended | confidence | as-written member | corrected member |
|---|---|---|---|---|---|---|
| src/main.js:48 | a protected page without a valid session redirects with `next('/login')` | any protected destination (e.g. `/profile`) with no session: "/login" matches no static record (login is at "/"), so it resolves to the catch-all `not-found` page | send the visitor to the login page, as the comment on line 47 says | medium, not executed; the router guard runs first and usually redirects before this one, so the fault shows only when the two guards see different session answers | `MainGuard.SessionGuardAsWritten`, `MainGuard.AsWrittenRedirectMissesLogin` | `MainGuard.SessionGuard`, `MainGuard.CorrectedRedirectReachesLogin` |

## Left out

- The authentication backend (src/supabase.js): client construction, environment variables and storage options. Its answers are inputs of the model.
- The profile lookup's key: the queried user id is not modelled. The snapshot gives the lookup's answer directly. `session?.user?.id` is only carried as the session value.
- A profile query that reports an error together with data: the model assumes an errored query returns no data.
- The `document.title` update, every `console.*` call and the `securityEvent` record (timestamps, user agent). These are side effects with no bearing on the decision.
- The `afterEach` audit log and the `onError` hook's `router.push` to `not-found`. These are logging and an environment-dependent redirect (`NODE_ENV`), outside the guard's decision.
- `scrollBehavior`: vue-router integration with no access-control role.
- vue-router's matcher: the model's `Resolve` knows only exact static paths and the catch-all. Ranking, the default case-insensitive matching and the optional trailing slash are not modelled. None of them changes which record "/login" or the table's own paths resolve to.
- Lazy component imports, the order in which the two registered guards compose, and the cancelling of stale navigations: these belong to the routing library.
- Async suspension: every awaited call is a given result in the snapshot.
- The app setup and `app.mount` in src/main.js, and the dev-server headers and CSP in vite.config.js.
- `RedirectChain.FullPath`: the `redirect` query is appended without URL encoding; the contract promises only that the full path starts with the record's path and ends with the query.
- `RedirectChain.Follow`: a chain is followed for a bounded number of guard runs (its fuel), on a snapshot that stays the same across runs; the effect of `signOut()` on later runs is not modelled.
