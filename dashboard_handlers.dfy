/**
 * The form handlers of the driver dashboard (`src/pages/Dashboard/handlers.ts`):
 * editing one profile field, picking a file, and the two submit sequences.
 */
module DashboardHandlers {
  import opened Wrappers
  import opened Types
  import opened Backend
  import opened SupabaseApi

  /** The named inputs of the profile form (`e.target.name`). */
  datatype ProfileField = FirstName | LastName | Phone | LicenseNumber | CarMake | CarModel | CarYear | CarColor | CarPlate

  /** The column an input edits. */
  function FieldValue(p: DriverProfile, f: ProfileField): Option<string>
  {
    match f
    case FirstName => p.firstName
    case LastName => p.lastName
    case Phone => p.phone
    case LicenseNumber => p.licenseNumber
    case CarMake => p.carMake
    case CarModel => p.carModel
    case CarYear => p.carYear
    case CarColor => p.carColor
    case CarPlate => p.carPlate
  }

  /** The profile with every form column cleared: what an edit must leave alone. */
  function OutsideForm(p: DriverProfile): DriverProfile
  {
    p.(firstName := None, lastName := None, phone := None, licenseNumber := None, carMake := None,
       carModel := None, carYear := None, carColor := None, carPlate := None)
  }

  /**
   * `handleProfileChange`: `{...prev, [name]: value}`, and a missing profile
   * stays missing. Only the named column changes.
   */
  function HandleProfileChange(profile: Option<DriverProfile>, name: ProfileField, value: string)
    : (r: Option<DriverProfile>)
    ensures profile.None? <==> r.None?
    ensures r.Some? ==> FieldValue(r.value, name) == Some(value)
    ensures r.Some? ==> forall g :: g != name ==> FieldValue(r.value, g) == FieldValue(profile.value, g)
    ensures r.Some? ==> OutsideForm(r.value) == OutsideForm(profile.value)
  {
    match profile
    case None => None
    case Some(p) =>
      Some(match name
        case FirstName => p.(firstName := Some(value))
        case LastName => p.(lastName := Some(value))
        case Phone => p.(phone := Some(value))
        case LicenseNumber => p.(licenseNumber := Some(value))
        case CarMake => p.(carMake := Some(value))
        case CarModel => p.(carModel := Some(value))
        case CarYear => p.(carYear := Some(value))
        case CarColor => p.(carColor := Some(value))
        case CarPlate => p.(carPlate := Some(value)))
  }

  /**
   * A file input's change handler (`handleCarPhotoChange`, `handlePosterImageChange`):
   * the first chosen file replaces the current one; with no file the setter
   * is not called and the current one stays.
   */
  function HandleFileChange(files: Option<seq<File>>, current: Option<File>): (r: Option<File>)
    ensures files.Some? && |files.value| > 0 ==> r == Some(files.value[0])
    ensures files.None? || files.value == [] ==> r == current
  {
    if files.Some? && |files.value| > 0 then Some(files.value[0]) else current
  }

  /** A storage object's address as the pages store it: `bucket/path`. */
  function StorageUrl(bucket: string, path: string): (url: string)
    ensures |url| == |bucket| + 1 + |path|
    ensures url[..|bucket| + 1] == bucket + "/" && url[|bucket| + 1..] == path
  {
    bucket + "/" + path
  }

  /** Two paths stored in the same bucket give the same address only if they are the same path. */
  lemma StorageUrlInjective(bucket: string, p: string, q: string)
    requires StorageUrl(bucket, p) == StorageUrl(bucket, q)
    ensures p == q
  {
    assert p == StorageUrl(bucket, p)[|bucket| + 1..];
  }

  /**
   * The car photo address a profile submit stores: the existing one unless
   * the upload returned a (non-empty) path.
   */
  function CarPhotoUrl(existing: Option<string>, uploaded: Option<string>): (url: Option<string>)
    ensures Truthy(uploaded) ==> url == Some(StorageUrl("driver-uploads", uploaded.value))
    ensures !Truthy(uploaded) ==> url == existing
  {
    if Truthy(uploaded) then Some(StorageUrl("driver-uploads", uploaded.value)) else existing
  }

  /** The kind of toast a handler ends with. */
  datatype Notice = Quiet | Success | Failure

  /** The dashboard's form state that the handlers update. */
  class DashboardForms {
    var profile: Option<DriverProfile>
    var carPhoto: Option<File>
    var posterImage: Option<File>
    var isSaving: bool
    var isPosterSubmitting: bool

    constructor ()
      ensures profile.None? && carPhoto.None? && posterImage.None?
      ensures !isSaving && !isPosterSubmitting
    {
      profile, carPhoto, posterImage := None, None, None;
      isSaving, isPosterSubmitting := false, false;
    }

    /** A change in a profile input. */
    method ChangeField(name: ProfileField, value: string)
      modifies this`profile
      ensures profile == HandleProfileChange(old(profile), name, value)
    {
      profile := HandleProfileChange(profile, name, value);
    }

    /** A change in the car photo input. */
    method ChangeCarPhoto(files: Option<seq<File>>)
      modifies this`carPhoto
      ensures carPhoto == HandleFileChange(files, old(carPhoto))
    {
      carPhoto := HandleFileChange(files, carPhoto);
    }

    /** A change in the poster image input. */
    method ChangePosterImage(files: Option<seq<File>>)
      modifies this`posterImage
      ensures posterImage == HandleFileChange(files, old(posterImage))
    {
      posterImage := HandleFileChange(files, posterImage);
    }

    /**
     * `handleSubmitProfile`: with a user and a profile, upload the chosen car
     * photo, then update the profile if it has an id or create it (owned by
     * the signed-in user, unverified) if not. `stamp` is `Date.now()`, `clock`
     * the two clock reads of a created row; `upload` and `save` answer the two backend calls.
     */
    method SubmitProfile(user: Option<User>, stamp: string, clock: Stamps,
                         upload: Await<UploadResponse>, save: Await<Option<DbError>>)
      returns (requests: seq<Request>, notice: Notice)
      modifies this`isSaving
      ensures user.None? || profile.None? ==>
        requests == [] && notice == Quiet && isSaving == old(isSaving)
      ensures user.Some? && profile.Some? ==> !isSaving && notice != Quiet
      ensures user.Some? && profile.Some? && carPhoto.Some? ==>
        |requests| >= 1 &&
        requests[0] == Upload("driver-uploads", "car-photos/" + user.value.id + "/" + stamp + "-" + carPhoto.value.name)
      ensures user.Some? && profile.Some? && carPhoto.Some? && upload.Threw? ==>
        |requests| == 1 && notice == Failure
      ensures user.Some? && profile.Some? && (carPhoto.None? || upload.Resolved?) ==>
        var uploaded := if carPhoto.Some? then UploadFile(upload).value else None;
        var updated := profile.value.(carPhotoUrl := CarPhotoUrl(profile.value.carPhotoUrl, uploaded));
        var sent := if Truthy(profile.value.id) then UpdateProfile(user.value.id, updated)
          else InsertProfile(NewProfileRow(updated.(userId := user.value.id, email := Some(user.value.email),
                                                    isVerified := false), clock));
        requests == (if carPhoto.Some? then [requests[0]] else []) + [sent] &&
        (notice == Success <==> save == Resolved(None))
    {
      requests, notice := [], Quiet;
      if user.None? || profile.None? {
        return;
      }
      var uid, current := user.value.id, profile.value;
      isSaving := true;
      var carPhotoURL := current.carPhotoUrl;
      if carPhoto.Some? {
        var filePath := "car-photos/" + uid + "/" + stamp + "-" + carPhoto.value.name;
        requests := requests + [Upload("driver-uploads", filePath)];
        var uploaded := UploadFile(upload);
        if uploaded.Threw? {
          notice := Failure;
          isSaving := false;
          return;
        }
        carPhotoURL := CarPhotoUrl(carPhotoURL, uploaded.value);
      }
      var updated := current.(carPhotoUrl := carPhotoURL);
      var success;
      if Truthy(current.id) {
        requests := requests + [UpdateProfile(uid, updated)];
        success := WriteSucceeded(save);
      } else {
        var newProfile := updated.(userId := uid, email := Some(user.value.email), isVerified := false);
        var sent;
        success, sent := CreateDriverProfile(newProfile, clock, save);
        requests := requests + [sent];
      }
      notice := if success then Success else Failure;
      isSaving := false;
    }

    /**
     * `handleSubmitPosterVerification`: without a user or an image, only an
     * error toast; otherwise upload the image, insert a pending verification
     * pointing at it, and clear the image only when both succeeded.
     */
    method SubmitPosterVerification(user: Option<User>, stamp: string, now: string,
                                    upload: Await<UploadResponse>, insert: Await<Option<DbError>>)
      returns (requests: seq<Request>, notice: Notice)
      modifies this`posterImage, this`isPosterSubmitting
      ensures user.None? || old(posterImage).None? ==>
        requests == [] && notice == Failure &&
        posterImage == old(posterImage) && isPosterSubmitting == old(isPosterSubmitting)
      ensures user.Some? && old(posterImage).Some? ==>
        !isPosterSubmitting && |requests| >= 1 &&
        requests[0] == Upload("verification-uploads",
                              "poster-verifications/" + user.value.id + "/" + stamp + "-" + old(posterImage).value.name)
      ensures user.Some? && old(posterImage).Some? && !(upload.Resolved? && Truthy(UploadFile(upload).value)) ==>
        |requests| == 1 && notice == Failure && posterImage == old(posterImage)
      ensures user.Some? && old(posterImage).Some? && upload.Resolved? && Truthy(UploadFile(upload).value) ==>
        requests == [requests[0], InsertVerification(PosterVerification(user.value.id,
                        StorageUrl("verification-uploads", UploadFile(upload).value.value), Pending, now))] &&
        (notice == Success <==> insert == Resolved(None)) &&
        (posterImage == if insert == Resolved(None) then None else old(posterImage))
      ensures notice == Success ==> posterImage.None?
    {
      requests, notice := [], Failure;
      if user.None? || posterImage.None? {
        return;
      }
      isPosterSubmitting := true;
      var uid := user.value.id;
      var filePath := "poster-verifications/" + uid + "/" + stamp + "-" + posterImage.value.name;
      requests := requests + [Upload("verification-uploads", filePath)];
      var uploaded := UploadFile(upload);
      if uploaded.Threw? || !Truthy(uploaded.value) {
        // a thrown upload error, or the `Failed to upload image` error
        isPosterSubmitting := false;
        return;
      }
      var verification := PosterVerification(uid, StorageUrl("verification-uploads", uploaded.value.value), Pending, now);
      requests := requests + [InsertVerification(verification)];
      if insert.Threw? || insert.value.Some? {
        isPosterSubmitting := false;
        return;
      }
      notice := Success;
      posterImage := None;
      isPosterSubmitting := false;
    }
  }
}
