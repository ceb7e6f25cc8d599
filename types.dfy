/**
 * The records the application passes around: the authentication state and
 * the three table rows (driver profile, poster verification, trip).
 * Column names are written in camelCase (`first_name` becomes `firstName`).
 */
module Types {
  import opened Wrappers

  /** The signed-in visitor as the authentication state holds it. */
  datatype User = User(id: string, email: string)

  /** The authentication state shared with every page. */
  datatype AuthData = AuthData(user: Option<User>, isAdmin: bool, isLoading: bool) {

    /** The invariant the controller keeps: only a present user can be an admin. */
    predicate AdminImpliesUser() {
      isAdmin ==> user.Some?
    }
  }

  /**
   * JavaScript truthiness of an optional string: `null`, `undefined` and the
   * empty string are falsy.
   */
  predicate Truthy(s: Option<string>) {
    s.Some? && s.value != ""
  }

  /** `s || ''`: the string when it is truthy, else the empty string. */
  function OrEmpty(s: Option<string>): (r: string)
    ensures Truthy(s) ==> r == s.value
    ensures !Truthy(s) ==> r == ""
  {
    if Truthy(s) then s.value else ""
  }

  /**
   * A row of `driver_profiles`. Every text column is optional: rows as the
   * backend returns them may lack any of them, and the code guards each
   * read with `?.` or `||`. `carYear` holds the text the form writes.
   */
  datatype DriverProfile = DriverProfile(
    id: Option<string>,
    userId: string,
    firstName: Option<string>,
    lastName: Option<string>,
    email: Option<string>,
    phone: Option<string>,
    licenseNumber: Option<string>,
    carMake: Option<string>,
    carModel: Option<string>,
    carYear: Option<string>,
    carColor: Option<string>,
    carPlate: Option<string>,
    carPhotoUrl: Option<string>,
    createdAt: Option<string>,
    updatedAt: Option<string>,
    isVerified: bool,
    isAdmin: bool)

  datatype VerificationStatus = Pending | Approved | Rejected

  /** A row of `poster_verifications` as a driver submits it. */
  datatype PosterVerification = PosterVerification(
    driverId: string,
    imageUrl: string,
    status: VerificationStatus,
    submittedAt: string)

  /**
   * A row of `trips` as the trip form submits it. The distance is the
   * floating-point parse of the form text and is kept as that text.
   */
  datatype Trip = Trip(
    driverId: string,
    startLocation: string,
    startImageUrl: Option<string>,
    endLocation: string,
    endImageUrl: Option<string>,
    midwayImageUrl: Option<string>,
    distanceText: string,
    startTime: string,
    endTime: string,
    notes: string,
    createdAt: string,
    updatedAt: string)

  /** A file chosen in a file input; only its name reaches the model. */
  datatype File = File(name: string)
}
