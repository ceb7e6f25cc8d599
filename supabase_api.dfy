/**
 * The data-access wrappers of `src/lib/supabase.ts`: how each backend answer
 * is mapped to the value the pages see (`null`, `false`, `[]` or the data),
 * and the requests the multi-step wrappers issue.
 */
module SupabaseApi {
  import opened Wrappers
  import opened Types
  import opened Backend
  import AuthMachine

  /** The requests the application sends to the backend, in the order it sends them. */
  datatype Request =
    | SelectProfile(userId: string)
    | GetUser
    | InsertProfile(row: DriverProfile)
    | UpdateProfile(userId: string, row: DriverProfile)
    | Upload(bucket: string, path: string)
    | InsertVerification(verification: PosterVerification)
    | InsertTrip(trip: Trip)
    | ListTrips(userId: string)
    | ListDrivers
    | ListPendingVerifications
    | UpdateVerification(id: string, status: VerificationStatus, reviewedAt: string, reviewedBy: Option<string>)
    | SelectDemoProfiles
    | SignUp(email: string)

  /** The code PostgREST gives a `.single()` query that matched no row. */
  const NoRowCode := "PGRST116"

  /**
   * The two clock reads of one inserted profile row: `created_at` and
   * `updated_at` each come from their own `new Date().toISOString()`, so
   * they may differ.
   */
  datatype Stamps = Stamps(created: string, updated: string)

  /** The profile `getDriverProfile` creates for a user who has none. */
  function DefaultProfile(userId: string, email: Option<string>, clock: Stamps): (p: DriverProfile)
    ensures p.userId == userId && p.email == Some(OrEmpty(email))
    ensures p.firstName == Some("") && p.lastName == Some("")
    ensures !p.isVerified && !p.isAdmin
    ensures p.createdAt == Some(clock.created) && p.updatedAt == Some(clock.updated)
  {
    DriverProfile(None, userId, Some(""), Some(""), Some(OrEmpty(email)),
      None, None, None, None, None, None, None, None, Some(clock.created), Some(clock.updated), false, false)
  }

  /**
   * `getDriverProfile(userId)`: the row when there is one; when there is none,
   * a default row is inserted for the signed-in user and the inserted row is
   * returned. Every error, returned or thrown, yields `None`, except the
   * no-row error, which leads to the insert.
   */
  method GetDriverProfile(userId: string, clock: Stamps, select: Await<Single<DriverProfile>>,
                          currentUser: Await<Option<AuthUser>>, insert: Await<Single<DriverProfile>>)
    returns (profile: Option<DriverProfile>, requests: seq<Request>)
    ensures |requests| >= 1 && requests[0] == SelectProfile(userId)
    ensures select.Threw? ==> profile.None? && requests == [SelectProfile(userId)]
    ensures select.Resolved? && select.value.error.Some? && select.value.error.value.code != NoRowCode
      ==> profile.None? && requests == [SelectProfile(userId)]
    ensures select.Resolved? && select.value.data.Some? &&
            (select.value.error.None? || select.value.error.value.code == NoRowCode)
      ==> profile == select.value.data && requests == [SelectProfile(userId)]
    ensures select.Resolved? && select.value.data.None? &&
            (select.value.error.None? || select.value.error.value.code == NoRowCode)
      ==> (if currentUser.Threw? || currentUser.value.None? then
             profile.None? && requests == [SelectProfile(userId), GetUser]
           else
             requests == [SelectProfile(userId), GetUser,
                          InsertProfile(DefaultProfile(userId, currentUser.value.value.email, clock))] &&
             profile == (if insert.Resolved? && insert.value.error.None? then insert.value.data else None))
  {
    requests := [SelectProfile(userId)];
    if select.Threw? {
      return None, requests;
    }
    var data, error := select.value.data, select.value.error;
    if error.Some? && error.value.code != NoRowCode {
      return None, requests;
    }
    if data.None? {
      requests := requests + [GetUser];
      if currentUser.Threw? || currentUser.value.None? {
        return None, requests;
      }
      var row := DefaultProfile(userId, currentUser.value.value.email, clock);
      requests := requests + [InsertProfile(row)];
      if insert.Threw? || insert.value.error.Some? {
        return None, requests;
      }
      return insert.value.data, requests;
    }
    return data, requests;
  }

  /** The wrappers with a try/catch (`updateDriverProfile`, `createDriverProfile`): any error gives false. */
  function WriteSucceeded(response: Await<Option<DbError>>): (ok: bool)
    ensures ok <==> response == Resolved(None)
  {
    match response
    case Threw(_) => false
    case Resolved(error) => error.None?
  }

  /**
   * The wrappers without one (`logTrip`, `updateVerificationStatus`): a
   * returned error gives false, a thrown one propagates.
   */
  function WriteOutcome(response: Await<Option<DbError>>): (r: Await<bool>)
    ensures response.Threw? ==> r == Threw(response.reason)
    ensures response.Resolved? ==> r == Resolved(response.value.None?)
  {
    match response
    case Threw(reason) => Threw(reason)
    case Resolved(error) => Resolved(error.None?)
  }

  /** The record `createDriverProfile` inserts: names and email default to '', the flags are forced off. */
  function NewProfileRow(data: DriverProfile, clock: Stamps): (row: DriverProfile)
    ensures !row.isVerified && !row.isAdmin
    ensures row.firstName == Some(OrEmpty(data.firstName))
    ensures row.lastName == Some(OrEmpty(data.lastName))
    ensures row.email == Some(OrEmpty(data.email))
    ensures row.createdAt == Some(clock.created) && row.updatedAt == Some(clock.updated)
    ensures row.(firstName := data.firstName, lastName := data.lastName, email := data.email,
                 isVerified := data.isVerified, isAdmin := data.isAdmin,
                 createdAt := data.createdAt, updatedAt := data.updatedAt) == data
  {
    data.(firstName := Some(OrEmpty(data.firstName)),
          lastName := Some(OrEmpty(data.lastName)),
          email := Some(OrEmpty(data.email)),
          isVerified := false,
          isAdmin := false,
          createdAt := Some(clock.created),
          updatedAt := Some(clock.updated))
  }

  /** `createDriverProfile(data)`: inserts the normalised row; false on any error, returned or thrown. */
  method CreateDriverProfile(data: DriverProfile, clock: Stamps, response: Await<Option<DbError>>)
    returns (ok: bool, sent: Request)
    ensures sent == InsertProfile(NewProfileRow(data, clock))
    ensures ok <==> response == Resolved(None)
  {
    sent := InsertProfile(NewProfileRow(data, clock));
    ok := WriteSucceeded(response);
  }

  /** Whatever flags the caller asks for, a row created through `createDriverProfile` is neither verified nor admin. */
  lemma CreatedProfilesNeverPrivileged(data: DriverProfile, clock: Stamps)
    requires data.isAdmin || data.isVerified
    ensures !NewProfileRow(data, clock).isAdmin && !NewProfileRow(data, clock).isVerified
    ensures NewProfileRow(data, clock) != data
  {
  }

  /** The answer of a storage upload: the stored path, or the error object. */
  datatype UploadResponse = Uploaded(path: string) | UploadError(error: DbError)

  /** `uploadFile`: the stored path, `None` on a returned error; a thrown error propagates. */
  function UploadFile(response: Await<UploadResponse>): (r: Await<Option<string>>)
    ensures response.Threw? <==> r.Threw?
    ensures r == Resolved(None) <==> response.Resolved? && response.value.UploadError?
    ensures forall p :: r == Resolved(Some(p)) <==> response == Resolved(Uploaded(p))
  {
    match response
    case Threw(reason) => Threw(reason)
    case Resolved(Uploaded(path)) => Resolved(Some(path))
    case Resolved(UploadError(_)) => Resolved(None)
  }

  /** The list wrappers (`getDriverTrips`, `getAllDrivers`, `getPendingVerifications`): `[]` on a returned error. */
  function RowsOrEmpty<T>(response: Await<Rows<T>>): (r: Await<seq<T>>)
    ensures response.Threw? <==> r.Threw?
    ensures response.Resolved? && response.value.RowsError? ==> r == Resolved([])
    ensures response.Resolved? && response.value.Rows? ==> r == Resolved(response.value.rows)
  {
    match response
    case Threw(reason) => Threw(reason)
    case Resolved(Rows(rows)) => Resolved(rows)
    case Resolved(RowsError(_)) => Resolved([])
  }

  /**
   * `updateVerificationStatus(id, status)`: it first asks for the current
   * user (a throw there propagates before any update), then updates the
   * row with the reviewer's id, and maps the answer like `logTrip`.
   */
  method UpdateVerificationStatus(id: string, status: VerificationStatus, now: string,
                                  currentUser: Await<Option<AuthUser>>, update: Await<Option<DbError>>)
    returns (r: Await<bool>, requests: seq<Request>)
    ensures currentUser.Threw? ==> r.Threw? && requests == [GetUser]
    ensures currentUser.Resolved? ==>
      requests == [GetUser, UpdateVerification(id, status, now,
                     if currentUser.value.Some? then Some(currentUser.value.value.id) else None)] &&
      r == WriteOutcome(update)
  {
    requests := [GetUser];
    if currentUser.Threw? {
      return Threw(currentUser.reason), requests;
    }
    var reviewer := if currentUser.value.Some? then Some(currentUser.value.value.id) else None;
    requests := requests + [UpdateVerification(id, status, now, reviewer)];
    r := WriteOutcome(update);
  }

  /** The two demo accounts. */
  const DemoDriverEmail := "driver@example.com"
  const DemoAdminEmail := "admin@example.com"

  /** The profile requests `createDemoAccounts` passes to `createDriverProfile`. */
  function DemoDriverRequest(userId: string): DriverProfile
  {
    DriverProfile(None, userId, Some("Demo"), Some("Driver"), Some(DemoDriverEmail),
      None, None, None, None, None, None, None, None, None, None, false, false)
  }

  function DemoAdminRequest(userId: string): DriverProfile
  {
    DriverProfile(None, userId, Some("Admin"), Some("User"), Some(DemoAdminEmail),
      None, None, None, None, None, None, None, None, None, None, true, true)
  }

  /**
   * `createDemoAccounts`: nothing to do when two demo profiles exist;
   * otherwise sign up the driver, create its profile, sign up the admin,
   * create its profile. A sign-up error, or any thrown error, gives false.
   * The profile creations' results are ignored. Each creation reads the
   * clock for itself: `driverClock` and `adminClock`.
   */
  method CreateDemoAccounts(existing: Await<Rows<string>>,
                            driverSignUp: Await<AuthMachine.SignUpResponse>, driverClock: Stamps,
                            driverInsert: Await<Option<DbError>>,
                            adminSignUp: Await<AuthMachine.SignUpResponse>, adminClock: Stamps,
                            adminInsert: Await<Option<DbError>>)
    returns (ok: bool, requests: seq<Request>)
    ensures existing.Threw? ==> !ok && requests == [SelectDemoProfiles]
    ensures existing.Resolved? && existing.value.Rows? && |existing.value.rows| >= 2
      ==> ok && requests == [SelectDemoProfiles]
    ensures ok <==> (existing.Resolved? &&
                     ((existing.value.Rows? && |existing.value.rows| >= 2) ||
                      (AuthMachine.SignUpSucceeded(driverSignUp) && AuthMachine.SignUpSucceeded(adminSignUp))))
    ensures !AuthMachine.SignUpSucceeded(driverSignUp) && SignUp(DemoDriverEmail) in requests ==> !ok
    ensures !AuthMachine.SignUpSucceeded(adminSignUp) && SignUp(DemoAdminEmail) in requests ==> !ok
    ensures forall k | 0 <= k < |requests| && requests[k].InsertProfile? ::
      !requests[k].row.isAdmin && !requests[k].row.isVerified
    ensures forall k | 0 <= k < |requests| && requests[k].InsertProfile? ::
      (requests[k].row.createdAt == Some(driverClock.created) && requests[k].row.updatedAt == Some(driverClock.updated)) ||
      (requests[k].row.createdAt == Some(adminClock.created) && requests[k].row.updatedAt == Some(adminClock.updated))
    ensures forall k | 0 <= k < |requests| && requests[k].InsertProfile? && requests[k].row.email == Some(DemoDriverEmail) ::
      requests[k].row.createdAt == Some(driverClock.created) && requests[k].row.updatedAt == Some(driverClock.updated)
    ensures forall k | 0 <= k < |requests| && requests[k].InsertProfile? && requests[k].row.email == Some(DemoAdminEmail) ::
      requests[k].row.createdAt == Some(adminClock.created) && requests[k].row.updatedAt == Some(adminClock.updated)
  {
    requests := [SelectDemoProfiles];
    if existing.Threw? {
      return false, requests;
    }
    if existing.value.Rows? && |existing.value.rows| >= 2 {
      return true, requests;
    }
    requests := requests + [SignUp(DemoDriverEmail)];
    if !AuthMachine.SignUpSucceeded(driverSignUp) {
      return false, requests;
    }
    if driverSignUp.value.user.Some? {
      var _, sent := CreateDriverProfile(DemoDriverRequest(driverSignUp.value.user.value.id), driverClock, driverInsert);
      requests := requests + [sent];
    }
    requests := requests + [SignUp(DemoAdminEmail)];
    if !AuthMachine.SignUpSucceeded(adminSignUp) {
      return false, requests;
    }
    if adminSignUp.value.user.Some? {
      var _, sent := CreateDriverProfile(DemoAdminRequest(adminSignUp.value.user.value.id), adminClock, adminInsert);
      requests := requests + [sent];
    }
    return true, requests;
  }

  /** The demo admin asks for the admin flag, but the row it gets stored has it off. */
  lemma DemoAdminStoredWithoutAdminFlag(userId: string, clock: Stamps)
    ensures DemoAdminRequest(userId).isAdmin
    ensures !NewProfileRow(DemoAdminRequest(userId), clock).isAdmin
  {
  }
}
