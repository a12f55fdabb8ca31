/**
 * The ride document of server/src/models/Ride.js: its status enumeration, its required
 * fields and its defaults, as applied when a ride is constructed from given fields, and the
 * bounds its `2dsphere` index puts on the start location when the ride is saved.
 */
module RideModel {
  import opened Wrappers

  /** Document identifiers (Mongo ObjectIds), opaque here. */
  type Id = string

  /** The `status` enum. There is no `expired` value. */
  datatype RideStatus = Pending | Accepted | Cancelled | Completed | NoDriverFound

  /** The string stored for each status. */
  function StatusName(s: RideStatus): string {
    match s
    case Pending => "pending"
    case Accepted => "accepted"
    case Cancelled => "cancelled"
    case Completed => "completed"
    case NoDriverFound => "no_driver_found"
  }

  /** The enum validator: a string names a status, or it fails validation. */
  function ParseStatus(name: string): Option<RideStatus> {
    if name == "pending" then Some(Pending)
    else if name == "accepted" then Some(Accepted)
    else if name == "cancelled" then Some(Cancelled)
    else if name == "completed" then Some(Completed)
    else if name == "no_driver_found" then Some(NoDriverFound)
    else None
  }

  /** Parsing and naming are inverse: the enum accepts exactly the five status names. */
  lemma StatusNamesRoundTrip(s: RideStatus, name: string)
    ensures ParseStatus(StatusName(s)) == Some(s)
    ensures ParseStatus(name).Some? ==> StatusName(ParseStatus(name).value) == name
    ensures ParseStatus(name).Some? <==>
      name in {"pending", "accepted", "cancelled", "completed", "no_driver_found"}
  {
  }

  /** `expired` is not a status the schema admits. */
  lemma NoExpiredStatus()
    ensures ParseStatus("expired") == None
  {
  }

  /** A ride document. `startLocation.type` can only be "Point", so it is not stored. */
  datatype Ride = Ride(
    id: Id,
    passengerId: Id,
    driverId: Option<Id>,
    coordinates: seq<real>,
    status: RideStatus,
    createdAt: int)

  /** The fields given to `new Ride({...})`; `None` for a field that is not given. */
  datatype RideFields = RideFields(
    passengerId: Option<Id>,
    driverId: Option<Id>,
    locationType: Option<string>,
    coordinates: Option<seq<real>>,
    status: Option<string>,
    createdAt: Option<int>)

  /** Why `save()` refuses a document: a schema check, or the geo index on `startLocation`. */
  datatype SchemaError =
    | MissingPassenger
    | MissingCoordinates
    | BadLocationType(given: string)
    | BadStatus(given: string)
    | PointOutOfBounds(coordinates: seq<real>)

  /**
   * A document built from `fields` and put through the schema's checks: `passengerId` and
   * `startLocation.coordinates` are required, `type` must be "Point" and `status` a status
   * name; `type` defaults to "Point", `status` to pending, `createdAt` to the time `now`.
   */
  function NewRide(id: Id, fields: RideFields, now: int): (r: Result<Ride, SchemaError>)
    ensures r.Err? <==>
      || fields.passengerId.None? || fields.coordinates.None?
      || (fields.locationType.Some? && fields.locationType.value != "Point")
      || (fields.status.Some? && ParseStatus(fields.status.value).None?)
    ensures r.Ok? ==>
      && r.value.id == id
      && r.value.passengerId == fields.passengerId.value
      && r.value.driverId == fields.driverId
      && r.value.coordinates == fields.coordinates.value
  {
    if fields.passengerId.None? then Err(MissingPassenger)
    else if fields.coordinates.None? then Err(MissingCoordinates)
    else if fields.locationType.Some? && fields.locationType.value != "Point" then
      Err(BadLocationType(fields.locationType.value))
    else if fields.status.Some? && ParseStatus(fields.status.value).None? then
      Err(BadStatus(fields.status.value))
    else
      var status := if fields.status.Some? then ParseStatus(fields.status.value).value else Pending;
      var createdAt := if fields.createdAt.Some? then fields.createdAt.value else now;
      Ok(Ride(id, fields.passengerId.value, fields.driverId, fields.coordinates.value, status, createdAt))
  }

  /**
   * The `2dsphere` index on `startLocation` reads a Point's pair as [longitude, latitude]
   * and refuses to index a longitude outside [-180, 180] or a latitude outside [-90, 90].
   * Coordinates that are not a pair are not judged here.
   */
  predicate GeoIndexAccepts(coordinates: seq<real>) {
    |coordinates| != 2 || (-180.0 <= coordinates[0] <= 180.0 && -90.0 <= coordinates[1] <= 90.0)
  }

  /**
   * `save()`: the document `NewRide` builds, which the geo index must then accept; either
   * refusal makes the save throw, and nothing is stored.
   */
  function Save(id: Id, fields: RideFields, now: int): (r: Result<Ride, SchemaError>)
    ensures r.Err? <==> NewRide(id, fields, now).Err? || !GeoIndexAccepts(fields.coordinates.value)
    ensures r.Ok? ==> r == NewRide(id, fields, now)
  {
    match NewRide(id, fields, now)
    case Err(e) => Err(e)
    case Ok(ride) => if GeoIndexAccepts(ride.coordinates) then Ok(ride) else Err(PointOutOfBounds(ride.coordinates))
  }

  /**
   * The index reads the pair as [longitude, latitude]: a pending ride at `[first, second]`
   * is saved exactly when the first is within 180 of zero and the second within 90, whatever
   * the names of the form fields that produced them.
   */
  lemma SaveReadsLongitudeLatitude(id: Id, passengerId: Id, first: real, second: real, now: int)
    ensures var fields := RideFields(Some(passengerId), None, Some("Point"), Some([first, second]), Some("pending"), Some(now));
      Save(id, fields, now).Ok? <==> -180.0 <= first <= 180.0 && -90.0 <= second <= 90.0
  {
  }

  /** The defaults: no status gives pending, no `createdAt` gives the creation time. */
  lemma RideDefaults(id: Id, passengerId: Id, coordinates: seq<real>, now: int)
    ensures var r := NewRide(id, RideFields(Some(passengerId), None, None, Some(coordinates), None, None), now);
      r.Ok? && r.value.status == Pending && r.value.createdAt == now && r.value.driverId.None?
  {
  }

  /** A given status name and time are kept as given. */
  lemma RideGivenValuesKept(id: Id, fields: RideFields, now: int)
    requires NewRide(id, fields, now).Ok?
    ensures fields.status.Some? ==> StatusName(NewRide(id, fields, now).value.status) == fields.status.value
    ensures fields.createdAt.Some? ==> NewRide(id, fields, now).value.createdAt == fields.createdAt.value
  {
    if fields.status.Some? {
      StatusNamesRoundTrip(Pending, fields.status.value);
    }
  }

  /** A status of "expired" is refused by the enum validator. */
  lemma ExpiredRefused(id: Id, fields: RideFields, now: int)
    requires fields.status == Some("expired")
    ensures NewRide(id, fields, now).Err?
  {
  }
}
