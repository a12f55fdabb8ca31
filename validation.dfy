/**
 * The server's input predicates (server/src/utils/validation.js). Each is one `&&` chain
 * whose truthiness decides acceptance; here each is the boolean that `if (!...)` tests.
 */
module Validation {
  import opened Js

  /** `validateLocation`: `coordinates` is an array of two numbers, |first| <= 180, |second| <= 90. */
  predicate ValidateLocation(location: JsValue) {
    Truthy(location)
    && var c := Field(location, "coordinates");
    Truthy(c) && c.Arr? && |c.elems| == 2
    && IsNumber(c.elems[0]) && IsNumber(c.elems[1])
    && AbsAtMost(c.elems[0], 180.0) && AbsAtMost(c.elems[1], 90.0)
  }

  /** `validateDriverData`: non-empty string `driverId` and `name`, and a valid `location`. */
  predicate ValidateDriverData(data: JsValue) {
    Truthy(data)
    && Truthy(Field(data, "driverId")) && Field(data, "driverId").Str?
    && Truthy(Field(data, "name")) && Field(data, "name").Str?
    && ValidateLocation(Field(data, "location"))
  }

  /** `validateRideRequest`: non-empty string `passengerId`, valid pickup, and a dropoff that is absent or valid. */
  predicate ValidateRideRequest(data: JsValue) {
    Truthy(data)
    && Truthy(Field(data, "passengerId")) && Field(data, "passengerId").Str?
    && ValidateLocation(Field(data, "pickupLocation"))
    && (!Truthy(Field(data, "dropoffLocation")) || ValidateLocation(Field(data, "dropoffLocation")))
  }

  /** `validateSocketAuth`, given the value of `socket.handshake.auth.token`. */
  predicate ValidateSocketAuth(token: JsValue) {
    Truthy(token) && token.Str?
  }

  /** A location object whose `coordinates` is the pair [x, y]. */
  function LocationAt(x: real, y: real): JsValue {
    Obj(map["coordinates" := Arr([Num(x), Num(y)])])
  }

  /**
   * A location is valid exactly when it is an object whose `coordinates` field is a
   * two-element array of finite numbers, the first within [-180, 180] and the second
   * within [-90, 90], bounds included.
   */
  lemma LocationExactly(location: JsValue)
    ensures ValidateLocation(location) <==>
      location.Obj? && "coordinates" in location.fields
      && var c := location.fields["coordinates"];
      c.Arr? && |c.elems| == 2 && c.elems[0].Num? && c.elems[1].Num?
      && -180.0 <= c.elems[0].n <= 180.0 && -90.0 <= c.elems[1].n <= 90.0
  {
  }

  /** Both bounds are inclusive, and the first element is the one bounded by 180. */
  lemma LocationBoundsAndOrder()
    ensures ValidateLocation(LocationAt(180.0, 90.0)) && ValidateLocation(LocationAt(-180.0, -90.0))
    ensures !ValidateLocation(LocationAt(180.5, 0.0)) && !ValidateLocation(LocationAt(0.0, -90.5))
    ensures ValidateLocation(LocationAt(100.0, 0.0)) && !ValidateLocation(LocationAt(0.0, 100.0))
  {
  }

  /** NaN passes the `typeof` test but never the range test. */
  lemma LocationRejectsNaN(other: JsValue)
    ensures !ValidateLocation(Obj(map["coordinates" := Arr([NaN, other])]))
    ensures !ValidateLocation(Obj(map["coordinates" := Arr([other, NaN])]))
  {
  }

  /**
   * Valid driver data has both identifiers as non-empty strings and a valid location;
   * whatever passes it therefore also passes `validateLocation` on its `location`.
   */
  lemma DriverDataExactly(data: JsValue)
    ensures ValidateDriverData(data) <==>
      data.Obj?
      && "driverId" in data.fields && data.fields["driverId"].Str? && data.fields["driverId"].s != ""
      && "name" in data.fields && data.fields["name"].Str? && data.fields["name"].s != ""
      && ValidateLocation(Field(data, "location"))
  {
  }

  /** An empty `driverId` or `name` is rejected even when everything else is valid. */
  lemma DriverDataRejectsEmptyStrings(name: string, driverId: string, location: JsValue)
    ensures !ValidateDriverData(Obj(map["driverId" := Str(""), "name" := Str(name), "location" := location]))
    ensures !ValidateDriverData(Obj(map["driverId" := Str(driverId), "name" := Str(""), "location" := location]))
  {
  }

  /**
   * A ride request needs a non-empty string `passengerId` and a valid pickup; the dropoff
   * may be missing or any falsy value, and otherwise must itself be a valid location.
   */
  lemma RideRequestExactly(data: JsValue)
    ensures ValidateRideRequest(data) <==>
      data.Obj?
      && "passengerId" in data.fields && data.fields["passengerId"].Str? && data.fields["passengerId"].s != ""
      && ValidateLocation(Field(data, "pickupLocation"))
      && ("dropoffLocation" !in data.fields || !Truthy(data.fields["dropoffLocation"])
          || ValidateLocation(data.fields["dropoffLocation"]))
  {
  }

  /** A request without any dropoff is judged on passenger and pickup alone. */
  lemma RideRequestDropoffOptional(passengerId: string, pickup: JsValue)
    ensures ValidateRideRequest(Obj(map["passengerId" := Str(passengerId), "pickupLocation" := pickup]))
        <==> passengerId != "" && ValidateLocation(pickup)
  {
  }

  /** The handshake token is accepted exactly when it is a non-empty string. */
  lemma SocketAuthExactly(token: JsValue)
    ensures ValidateSocketAuth(token) <==> exists s :: token == Str(s) && s != ""
  {
    if ValidateSocketAuth(token) {
      assert token == Str(token.s);
    }
  }
}
