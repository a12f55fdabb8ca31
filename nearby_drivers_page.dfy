/**
 * The nearby-drivers page of client/src/pages/NearbyDrivers.js, as values: the query it
 * emits for the typed location, how it takes the answer, the ride request it emits for a
 * chosen driver, and the list filter applied when that request is answered with success.
 */
module NearbyDriversPage {
  import opened Wrappers
  import opened Js
  import Seqs
  import CoordinateText

  /** The component state the handlers touch. */
  datatype Page = Page(location: string, drivers: JsValue, loadingDrivers: bool, activeRide: JsValue, locationError: bool)

  /** `socket.emit(event, payload, callback)`, the callback being the handler applied to its answer. */
  datatype Emit = Emit(event: string, payload: JsValue)

  /** The state before any interaction (before geolocation fills the text in). */
  const Initial: Page := Page("", Arr([]), false, Null, false)

  /**
   * `fetchNearbyDrivers`: a refused text sets the error flag and emits nothing; an accepted
   * one is split into `[lng, lat]` and queried with a radius of 5.
   */
  function FetchNearbyDrivers(page: Page): (Page, Option<Emit>) {
    if !CoordinateText.ValidCoordinates(page.location) then
      (page.(locationError := true), None)
    else
      var (lng, lat) := CoordinateText.NumberPair(page.location);
      var query := Obj(map["lng" := lng, "lat" := lat, "radius" := Num(5.0)]);
      (page.(locationError := false, loadingDrivers := true), Some(Emit("get_nearby_drivers", query)))
  }

  /** The query's callback: `setDrivers(response.data || [])`. */
  function DriversAnswered(page: Page, response: JsValue): Result<Page, Thrown> {
    match Get(response, "data")
    case Err(e) => Err(e)
    case Ok(data) => Ok(page.(drivers := if Truthy(data) then data else Arr([]), loadingDrivers := false))
  }

  /**
   * `handleRequestRide(driver)`: the payload names the driver, the stored user id (`null` when
   * there is none) and the location text's pair as `passengerLocation`. The text is not
   * checked again here.
   */
  function RideRequestPayload(page: Page, driver: JsValue, userId: Option<string>): Result<JsValue, Thrown> {
    match Get(driver, "driverId")
    case Err(e) => Err(e)
    case Ok(driverId) =>
      var (lng, lat) := CoordinateText.NumberPair(page.location);
      Ok(Obj(map[
        "driverId" := driverId,
        "passengerId" := if userId.Some? then Str(userId.value) else Null,
        "passengerLocation" := Obj(map["lng" := lng, "lat" := lat])]))
  }

  /**
   * `drivers.filter(d => d.driverId !== driverId)`, visiting left to right; a null or
   * undefined element throws when its `driverId` is read.
   */
  function WithoutDriver(drivers: seq<JsValue>, driverId: JsValue): Result<seq<JsValue>, Thrown>
    decreases |drivers|
  {
    if drivers == [] then Ok([])
    else
      match WithoutDriver(drivers[..|drivers| - 1], driverId)
      case Err(e) => Err(e)
      case Ok(kept) =>
        var d := drivers[|drivers| - 1];
        if Nullish(d) then Err(TypeErr(d, "driverId"))
        else if StrictEquals(Field(d, "driverId"), driverId) then Ok(kept)
        else Ok(kept + [d])
  }

  /**
   * The ride request's callback. The answer's data becomes the active ride; only a "success"
   * status filters the requested driver out of `listed`, the list the handler was created
   * with. A list that is not an array has no `filter`.
   */
  function RideAnswered(page: Page, listed: JsValue, driver: JsValue, response: JsValue): Result<Page, Thrown> {
    match Get(response, "data")
    case Err(e) => Err(e)
    case Ok(data) =>
      var page' := page.(activeRide := data);
      if !StrictEquals(Field(response, "status"), Str("success")) then Ok(page')
      else if !listed.Arr? then Err(NotAFunction("drivers.filter"))
      else
        match WithoutDriver(listed.elems, Field(driver, "driverId"))
        case Err(e) => Err(e)
        case Ok(kept) => Ok(page'.(drivers := Arr(kept)))
  }

  /** A query is emitted exactly when the text is accepted, and the error flag says which. */
  lemma FetchGuard(page: Page)
    ensures FetchNearbyDrivers(page).1.Some? <==> CoordinateText.ValidCoordinates(page.location)
    ensures FetchNearbyDrivers(page).0.locationError <==> !CoordinateText.ValidCoordinates(page.location)
    ensures FetchNearbyDrivers(page).0.drivers == page.drivers
  {
  }

  /** The query object built from a pair of values. */
  lemma QueryOfPair(lng: JsValue, lat: JsValue)
    ensures var query := Obj(map["lng" := lng, "lat" := lat, "radius" := Num(5.0)]);
      && query.fields.Keys == {"lng", "lat", "radius"}
      && Field(query, "coordinates") == Undefined
  {
    var query := Obj(map["lng" := lng, "lat" := lat, "radius" := Num(5.0)]);
    assert "coordinates" !in query.fields;
  }

  /**
   * The query holds exactly `lng`, `lat` and `radius`: the text's two fields as finite
   * numbers, and 5. It has no `coordinates` field.
   */
  lemma FetchQuery(page: Page)
    requires FetchNearbyDrivers(page).1.Some?
    ensures var emit := FetchNearbyDrivers(page).1.value;
      && emit.event == "get_nearby_drivers"
      && emit.payload.Obj? && emit.payload.fields.Keys == {"lng", "lat", "radius"}
      && emit.payload.fields["radius"] == Num(5.0)
      && Field(emit.payload, "coordinates") == Undefined
      && AbsAtMost(emit.payload.fields["lng"], 90.0) && AbsAtMost(emit.payload.fields["lat"], 180.0)
  {
    var pair := CoordinateText.NumberPair(page.location);
    CoordinateText.NumberPairBounds(page.location);
    QueryOfPair(pair.0, pair.1);
    assert FetchNearbyDrivers(page).1.value
      == Emit("get_nearby_drivers", Obj(map["lng" := pair.0, "lat" := pair.1, "radius" := Num(5.0)]));
  }

  /** Any answer without truthy `data` (an error answer, say) empties the list. */
  lemma DriversAnsweredEmpty(page: Page, response: JsValue)
    requires !Nullish(response) && !Truthy(Field(response, "data"))
    ensures DriversAnswered(page, response) == Ok(page.(drivers := Arr([]), loadingDrivers := false))
  {
  }

  /** The ride payload carries `passengerLocation` and no `pickupLocation`. */
  lemma PayloadHasNoPickup(page: Page, driver: JsValue, userId: Option<string>)
    requires RideRequestPayload(page, driver, userId).Ok?
    ensures var payload := RideRequestPayload(page, driver, userId).value;
      && payload.Obj? && payload.fields.Keys == {"driverId", "passengerId", "passengerLocation"}
      && Field(payload, "pickupLocation") == Undefined
      && Field(payload, "driverId") == Field(driver, "driverId")
  {
  }

  /** The filter fails exactly when some element is null or undefined. */
  lemma {:induction false} WithoutDriverFails(drivers: seq<JsValue>, driverId: JsValue)
    ensures WithoutDriver(drivers, driverId).Err? <==> exists i :: 0 <= i < |drivers| && Nullish(drivers[i])
    decreases |drivers|
  {
    if drivers != [] {
      var front := drivers[..|drivers| - 1];
      WithoutDriverFails(front, driverId);
      if exists i :: 0 <= i < |front| && Nullish(front[i]) {
        var i :| 0 <= i < |front| && Nullish(front[i]);
        assert Nullish(drivers[i]);
      }
      if exists i :: 0 <= i < |drivers| && Nullish(drivers[i]) {
        var i :| 0 <= i < |drivers| && Nullish(drivers[i]);
        if i < |front| {
          assert Nullish(front[i]);
        }
      }
    }
  }

  /**
   * On success exactly the drivers with that `driverId` are gone: the rest stay, as often as
   * before and in their order.
   */
  lemma {:induction false} WithoutDriverExactly(drivers: seq<JsValue>, driverId: JsValue)
    requires WithoutDriver(drivers, driverId).Ok?
    ensures var kept := WithoutDriver(drivers, driverId).value;
      && Seqs.IsSubsequence(kept, drivers)
      && forall d :: multiset(kept)[d] == if StrictEquals(Field(d, "driverId"), driverId) then 0 else multiset(drivers)[d]
    decreases |drivers|
  {
    if drivers != [] {
      var front := drivers[..|drivers| - 1];
      var last := drivers[|drivers| - 1];
      assert front + [last] == drivers;
      WithoutDriverExactly(front, driverId);
      var kept := WithoutDriver(front, driverId).value;
      if StrictEquals(Field(last, "driverId"), driverId) {
        Seqs.SubsequenceExtend(kept, front, last);
      } else {
        assert (kept + [last])[..|kept|] == kept;
      }
    }
  }

  /** An answer whose status is not "success" leaves the list as it was. */
  lemma OnlySuccessFilters(page: Page, listed: JsValue, driver: JsValue, response: JsValue)
    requires !Nullish(response) && Field(response, "status") != Str("success")
    ensures RideAnswered(page, listed, driver, response) == Ok(page.(activeRide := Field(response, "data")))
  {
  }
}
