/**
 * The router's side of a navigation guard: the destination handed in as `to`
 * and the three ways the guard can answer through `next(...)`.
 */
module Navigation {
  import opened Options
  import opened Routes

  /** The `to` route: the matched record and the full path (path and query) it was requested by. */
  datatype Destination = Destination(route: Route, fullPath: string)

  /** A redirect target: `next({ name, query: { redirect } })` or `next(path)`. */
  datatype Target =
    | Named(name: string, redirect: Option<string>)
    | Path(path: string)

  /** `next()`, `next(target)` and `next(false)`. */
  datatype Decision = Proceed | Redirect(target: Target) | Block
}
