/**
 * The trip logging page (`src/pages/TripLogging.tsx`): loading the driver's
 * trips, picking the three photos, and the submit sequence that uploads
 * them, inserts the trip and resets the form.
 */
module TripLogging {
  import opened Wrappers
  import opened Types
  import opened Backend
  import opened SupabaseApi
  import DashboardHandlers

  /** The three photos of a trip. */
  datatype Slot = Start | Midway | End

  function SlotName(slot: Slot): string
  {
    match slot
    case Start => "start"
    case Midway => "midway"
    case End => "end"
  }

  /** `trip-images/<uid>/<stamp>-<slot>-<file name>`. */
  function UploadPath(uid: string, stamp: string, slot: Slot, name: string): string
  {
    "trip-images/" + uid + "/" + stamp + "-" + SlotName(slot) + "-" + name
  }

  /**
   * Different slots never share an upload path when the two stamps have the
   * same length, as the 13-digit `Date.now()` values of the source do; with
   * stamps of different lengths a file name can imitate another slot's path.
   */
  lemma UploadPathsDistinct(uid: string, stamp: string, stamp': string, a: Slot, b: Slot, name: string, name': string)
    requires a != b
    requires |stamp| == |stamp'|
    ensures UploadPath(uid, stamp, a, name) != UploadPath(uid, stamp', b, name')
  {
    var k := |"trip-images/" + uid + "/" + stamp + "-"|;
    var p, q := UploadPath(uid, stamp, a, name), UploadPath(uid, stamp', b, name');
    assert p[k..] == SlotName(a) + "-" + name;
    assert q[k..] == SlotName(b) + "-" + name';
    assert p[k] != q[k];
  }

  /** The address an image gets: set exactly when its upload returned a path. */
  function ImageUrl(uploaded: Option<string>): (url: Option<string>)
    ensures url.Some? <==> Truthy(uploaded)
    ensures url.Some? ==> url.value == DashboardHandlers.StorageUrl("trip-uploads", uploaded.value)
  {
    if Truthy(uploaded) then Some(DashboardHandlers.StorageUrl("trip-uploads", uploaded.value)) else None
  }

  /**
   * The address a slot's photo ends up with: set exactly when a photo was
   * chosen and its upload returned a path (a thrown upload leaves none).
   */
  function SlotUrl(image: Option<File>, response: Await<UploadResponse>): (url: Option<string>)
    ensures url.Some? <==> image.Some? && response.Resolved? && Truthy(UploadFile(response).value)
    ensures url.Some? ==> url.value == "trip-uploads/" + UploadFile(response).value.value
  {
    if image.None? || response.Threw? then None else ImageUrl(UploadFile(response).value)
  }

  /** Whether a slot's upload threw, which abandons the submit. */
  predicate SlotThrew(image: Option<File>, response: Await<UploadResponse>)
  {
    image.Some? && response.Threw?
  }

  /** The photo addresses of a trip: start, midway, end. */
  datatype Urls = Urls(start: Option<string>, midway: Option<string>, end: Option<string>)

  /**
   * The trip record `handleSubmit` inserts: the driver is the user, the four
   * timestamps are the same instant, the rest comes from the form.
   */
  function TripRecord(uid: string, startLocation: string, endLocation: string, distanceKm: string,
                      notes: string, urls: Urls, now: string): (t: Trip)
    ensures t.driverId == uid
    ensures t.startTime == t.endTime == t.createdAt == t.updatedAt == now
    ensures t.startImageUrl == urls.start && t.midwayImageUrl == urls.midway && t.endImageUrl == urls.end
  {
    Trip(uid, startLocation, urls.start, endLocation, urls.end, urls.midway, distanceKm, now, now, notes, now, now)
  }

  /** The trip page's state. */
  class TripForm {
    var trips: seq<Trip>
    var isLoading: bool
    var isSubmitting: bool
    var startLocation: string
    var endLocation: string
    var distanceKm: string
    var notes: string
    var startImage: Option<File>
    var midwayImage: Option<File>
    var endImage: Option<File>

    constructor ()
      ensures trips == [] && isLoading && !isSubmitting
      ensures FormCleared()
    {
      trips, isLoading, isSubmitting := [], true, false;
      startLocation, endLocation, distanceKm, notes := "", "", "", "";
      startImage, midwayImage, endImage := None, None, None;
    }

    /** All seven form fields at their initial values. */
    predicate FormCleared()
      reads this
    {
      startLocation == "" && endLocation == "" && distanceKm == "" && notes == "" &&
      startImage.None? && midwayImage.None? && endImage.None?
    }

    /** The seven form fields. */
    function Form(): (string, string, string, string, Option<File>, Option<File>, Option<File>)
      reads this
    {
      (startLocation, endLocation, distanceKm, notes, startImage, midwayImage, endImage)
    }

    function Image(slot: Slot): Option<File>
      reads this
    {
      match slot
      case Start => startImage
      case Midway => midwayImage
      case End => endImage
    }

    /**
     * The effect's `loadTrips`: only once the authentication state is
     * resolved and names a user. A thrown fetch leaves the page loading.
     */
    method LoadTrips(auth: AuthData, response: Await<Rows<Trip>>) returns (requests: seq<Request>)
      modifies this`trips, this`isLoading
      ensures auth.isLoading || auth.user.None? ==>
        requests == [] && trips == old(trips) && isLoading == old(isLoading)
      ensures !auth.isLoading && auth.user.Some? ==>
        requests == [ListTrips(auth.user.value.id)] &&
        (if response.Threw? then isLoading && trips == old(trips)
         else !isLoading && trips == RowsOrEmpty(response).value)
    {
      requests := [];
      if auth.isLoading || auth.user.None? {
        return;
      }
      isLoading := true;
      requests := [ListTrips(auth.user.value.id)];
      var fetched := RowsOrEmpty(response);
      if fetched.Threw? {
        return;
      }
      trips := fetched.value;
      isLoading := false;
    }

    /** `handleImageChange` for one of the three photo inputs. */
    method ChangeImage(slot: Slot, files: Option<seq<File>>)
      modifies this`startImage, this`midwayImage, this`endImage
      ensures Image(slot) == DashboardHandlers.HandleFileChange(files, old(Image(slot)))
      ensures forall other :: other != slot ==> Image(other) == old(Image(other))
    {
      match slot
      case Start => startImage := DashboardHandlers.HandleFileChange(files, startImage);
      case Midway => midwayImage := DashboardHandlers.HandleFileChange(files, midwayImage);
      case End => endImage := DashboardHandlers.HandleFileChange(files, endImage);
    }

    /** One of the three upload blocks of `handleSubmit`. */
    method UploadImage(uid: string, stamp: string, slot: Slot, response: Await<UploadResponse>)
      returns (url: Option<string>, threw: bool, requests: seq<Request>)
      ensures threw == SlotThrew(Image(slot), response)
      ensures url == SlotUrl(Image(slot), response)
      ensures Image(slot).None? ==> requests == []
      ensures Image(slot).Some? ==>
        requests == [Upload("trip-uploads", UploadPath(uid, stamp, slot, Image(slot).value.name))]
    {
      url, threw, requests := None, false, [];
      var image := Image(slot);
      if image.Some? {
        requests := [Upload("trip-uploads", UploadPath(uid, stamp, slot, image.value.name))];
        var uploaded := UploadFile(response);
        if uploaded.Threw? {
          return None, true, requests;
        }
        url := ImageUrl(uploaded.value);
      }
    }

    /** The three upload blocks in order; the first thrown upload stops the rest. */
    method UploadImages(uid: string, stamps: (string, string, string),
                        uploads: (Await<UploadResponse>, Await<UploadResponse>, Await<UploadResponse>))
      returns (urls: Urls, threw: bool, requests: seq<Request>)
      ensures threw <==> SlotThrew(startImage, uploads.0) || SlotThrew(midwayImage, uploads.1) ||
                         SlotThrew(endImage, uploads.2)
      ensures !threw ==> urls == Urls(SlotUrl(startImage, uploads.0), SlotUrl(midwayImage, uploads.1),
                                     SlotUrl(endImage, uploads.2))
      ensures forall r | r in requests :: r.Upload? && r.bucket == "trip-uploads"
    {
      var startURL, midwayURL, endURL, sent;
      startURL, threw, requests := UploadImage(uid, stamps.0, Start, uploads.0);
      if threw {
        return Urls(None, None, None), threw, requests;
      }
      midwayURL, threw, sent := UploadImage(uid, stamps.1, Midway, uploads.1);
      requests := requests + sent;
      if threw {
        return Urls(None, None, None), threw, requests;
      }
      endURL, threw, sent := UploadImage(uid, stamps.2, End, uploads.2);
      requests := requests + sent;
      urls := Urls(startURL, midwayURL, endURL);
    }

    /**
     * The rest of `handleSubmit` once the photos are up: insert the trip; on
     * success reset the form and refetch the trips. A failed or thrown
     * insert keeps the form.
     */
    method SaveTrip(uid: string, t: Trip, log: Await<Option<DbError>>, refetch: Await<Rows<Trip>>)
      returns (requests: seq<Request>, notice: DashboardHandlers.Notice)
      modifies this`trips, this`startLocation, this`endLocation, this`distanceKm, this`notes,
               this`startImage, this`midwayImage, this`endImage
      ensures requests == [InsertTrip(t)] + (if log == Resolved(None) then [ListTrips(uid)] else [])
      ensures log == Resolved(None) ==>
        FormCleared() &&
        (if refetch.Threw? then trips == old(trips) && notice == DashboardHandlers.Failure
         else trips == RowsOrEmpty(refetch).value && notice == DashboardHandlers.Success)
      ensures log != Resolved(None) ==>
        Form() == old(Form()) && trips == old(trips) && notice == DashboardHandlers.Failure
    {
      requests := [InsertTrip(t)];
      var logged := WriteOutcome(log);
      if logged.Threw? || !logged.value {
        return requests, DashboardHandlers.Failure;
      }
      startLocation, endLocation, distanceKm, notes := "", "", "", "";
      startImage, midwayImage, endImage := None, None, None;
      requests := requests + [ListTrips(uid)];
      var fetched := RowsOrEmpty(refetch);
      if fetched.Threw? {
        return requests, DashboardHandlers.Failure;
      }
      trips := fetched.value;
      notice := DashboardHandlers.Success;
    }

    /**
     * `handleSubmit`: with a user, upload each chosen photo (`stamps` are the
     * three `Date.now()` values, `now` the trip time), insert the trip, and on
     * success reset the form and refetch the trips. Any thrown error skips the
     * rest. `isSubmitting` ends false on every path that started.
     */
    method HandleSubmit(user: Option<User>, stamps: (string, string, string), now: string,
                        uploads: (Await<UploadResponse>, Await<UploadResponse>, Await<UploadResponse>),
                        log: Await<Option<DbError>>, refetch: Await<Rows<Trip>>)
      returns (requests: seq<Request>, trip: Option<Trip>, notice: DashboardHandlers.Notice)
      modifies this`trips, this`isSubmitting, this`startLocation, this`endLocation, this`distanceKm, this`notes,
               this`startImage, this`midwayImage, this`endImage
      ensures user.None? ==>
        requests == [] && trip.None? && notice == DashboardHandlers.Quiet &&
        Form() == old(Form()) && trips == old(trips) && isSubmitting == old(isSubmitting)
      ensures user.Some? ==> !isSubmitting && notice != DashboardHandlers.Quiet
      ensures isLoading == old(isLoading)
      ensures trip.Some? <==>
        user.Some? && !(SlotThrew(old(startImage), uploads.0) || SlotThrew(old(midwayImage), uploads.1) ||
                        SlotThrew(old(endImage), uploads.2))
      ensures trip.Some? ==>
        trip.value == TripRecord(user.value.id, old(startLocation), old(endLocation), old(distanceKm), old(notes),
                                 Urls(SlotUrl(old(startImage), uploads.0), SlotUrl(old(midwayImage), uploads.1),
                                      SlotUrl(old(endImage), uploads.2)), now) &&
        InsertTrip(trip.value) in requests
      ensures trip.Some? && log == Resolved(None) ==>
        FormCleared() && requests[|requests| - 1] == ListTrips(user.value.id) &&
        (if refetch.Threw? then trips == old(trips) && notice == DashboardHandlers.Failure
         else trips == RowsOrEmpty(refetch).value && notice == DashboardHandlers.Success)
      ensures !(trip.Some? && log == Resolved(None)) ==>
        Form() == old(Form()) && trips == old(trips) && (user.Some? ==> notice == DashboardHandlers.Failure)
    {
      requests, trip, notice := [], None, DashboardHandlers.Quiet;
      if user.None? {
        return;
      }
      var uid := user.value.id;
      isSubmitting := true;
      var urls, threw;
      urls, threw, requests := UploadImages(uid, stamps, uploads);
      if threw {
        notice, isSubmitting := DashboardHandlers.Failure, false;
        return;
      }
      var t := TripRecord(uid, startLocation, endLocation, distanceKm, notes, urls, now);
      trip := Some(t);
      var sent;
      sent, notice := SaveTrip(uid, t, log, refetch);
      requests := requests + sent;
      isSubmitting := false;
    }
  }
}
