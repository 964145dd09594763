/**
 * The external authentication backend, seen only through the results of the
 * calls the two navigation guards await. Each result is an input of the model:
 * the backend itself, its network traffic and its storage are not modelled.
 */
module AuthProvider {
  import opened Options

  type UserId = string

  /**
   * What awaiting `supabase.auth.getSession()` yields: either it resolves with
   * `{ data: { session }, error }` (the session may be null, the error may be
   * set) or the promise rejects and the exception escapes to the caller.
   */
  datatype SessionLookup =
    | Returned(session: Option<UserId>, error: bool)
    | Rejected

  /**
   * What awaiting the `profiles` query `select('role').eq('id', userId).single()`
   * yields: a row whose `role` column may be null, a resolved result carrying an
   * error (and no data), or a rejected promise.
   */
  datatype ProfileLookup =
    | Row(role: Option<string>)
    | QueryError
    | Threw

  const DOCTOR: string := "Doctor"
  const PATIENT: string := "Patient"

  /** The closed role set with an explicit variant for every other (or missing) role value. */
  datatype Role = Doctor | Patient | Other(name: Option<string>)

  /** `profile?.role`: the role column of the row, undefined when the lookup produced no data. */
  function ProfileRole(p: ProfileLookup): (role: Option<string>)
    ensures role.Some? ==> p == Row(role)
    ensures p.Row? ==> role == p.role
  {
    match p
    case Row(role) => role
    case QueryError => None
    case Threw => None
  }

  /** Reads a raw role value with the source's strict string comparisons. */
  function Classify(role: Option<string>): (r: Role)
    ensures r == Doctor <==> role == Some(DOCTOR)
    ensures r == Patient <==> role == Some(PATIENT)
    ensures r.Other? ==> r.name == role
  {
    if role == Some(DOCTOR) then Doctor
    else if role == Some(PATIENT) then Patient
    else Other(role)
  }

  /** The raw value a role stands for. */
  function RoleName(r: Role): Option<string> {
    match r
    case Doctor => Some(DOCTOR)
    case Patient => Some(PATIENT)
    case Other(name) => name
  }

  /** A role in its unique representation: `Other` never carries a known role name. */
  predicate Canonical(r: Role) {
    r.Other? ==> r.name != Some(DOCTOR) && r.name != Some(PATIENT)
  }

  /** Classifying loses nothing: the raw value can be recovered, and the role is canonical. */
  lemma ClassifyRoundTrip(role: Option<string>)
    ensures RoleName(Classify(role)) == role
    ensures Canonical(Classify(role))
  {
  }

  /** Every canonical role is the classification of its own name. */
  lemma RoleNameRoundTrip(r: Role)
    requires Canonical(r)
    ensures Classify(RoleName(r)) == r
  {
  }
}
