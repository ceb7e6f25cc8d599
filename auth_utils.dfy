/** The admin lookup (`src/lib/auth-utils.ts`): one boolean column, failing closed. */
module AuthUtils {
  import opened Wrappers
  import opened Backend

  /** The single column the lookup selects from the visitor's `driver_profiles` row. */
  datatype AdminRow = AdminRow(isAdmin: Option<bool>)

  /** The answer to `select('is_admin').eq('user_id', id).single()`. */
  type AdminLookup = Await<Single<AdminRow>>

  /** The lookup grants admin exactly when it read a row whose flag is `true`. */
  predicate Grants(q: AdminLookup) {
    q.Resolved? && q.value.error.None? && q.value.data.Some? && q.value.data.value.isAdmin == Some(true)
  }

  /**
   * `checkIsAdmin`: a returned error or a thrown one gives `false`; otherwise
   * the truthiness of the row's `is_admin`, a missing row or flag being falsy.
   * It never propagates an error: every answer maps to a boolean.
   */
  function CheckIsAdmin(q: AdminLookup): (r: bool)
    ensures r <==> Grants(q)
    ensures q.Threw? ==> !r
    ensures q.Resolved? && q.value.error.Some? ==> !r
    ensures q.Resolved? && q.value.error.None? && (q.value.data.None? || q.value.data.value.isAdmin.None?) ==> !r
  {
    match q
    case Threw(_) => false
    case Resolved(Single(data, error)) =>
      if error.Some? then false
      else data.Some? && data.value.isAdmin.Some? && data.value.isAdmin.value
  }
}
