/**
 * The backend (authentication, tables, storage) as an oracle: each call the
 * code awaits is answered by a value supplied from outside the model.
 */
module Backend {
  import opened Wrappers

  /** What an awaited call yields: a value, or a thrown error (a rejected promise). */
  datatype Await<+T> = Resolved(value: T) | Threw(reason: string)

  /** An error object returned (not thrown) by the database client. */
  datatype DbError = DbError(code: string, message: string)

  /** The `{data, error}` answer of a `.single()` query or an insert with `.select().single()`. */
  datatype Single<+T> = Single(data: Option<T>, error: Option<DbError>)

  /** The answer of a list query: the rows, or the error object. */
  datatype Rows<+T> = Rows(rows: seq<T>) | RowsError(error: DbError)

  /** The user record the authentication backend hands out. */
  datatype AuthUser = AuthUser(id: string, email: Option<string>)
}
