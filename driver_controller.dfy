/**
 * The proximity filter and driver creation of server/src/controllers/driverController.js.
 * The haversine formula itself is not modelled: on numeric arguments it is an arbitrary
 * function supplied by the caller; what is modelled is how JavaScript feeds it values.
 */
module DriverController {
  import opened Wrappers
  import opened Js
  import Seqs

  /** The haversine formula of `calculateDistance(lat1, lon1, lat2, lon2)` on numbers, in km. */
  type Distance = (real, real, real, real) -> real

  /**
   * `calculateDistance` on JavaScript values. Every argument enters a subtraction
   * (`lat2 - lat1`, `lon2 - lon1`), which converts it with `Number`; one NaN operand makes
   * `dLat` or `dLon` NaN, and the NaN runs through `sin`, `atan2` and the product.
   */
  function CalculateDistance(distance: Distance, lat1: JsValue, lon1: JsValue, lat2: JsValue, lon2: JsValue): JsValue {
    var a, b, c, d := ToNumber(lat1), ToNumber(lon1), ToNumber(lat2), ToNumber(lon2);
    if a.Num? && b.Num? && c.Num? && d.Num? then Num(distance(a.n, b.n, c.n, d.n)) else NaN
  }

  /** `typeof radius === "number" ? radius : 5` */
  function SearchRadius(radius: JsValue): JsValue {
    if IsNumber(radius) then radius else Num(5.0)
  }

  /** `distance <= searchRadius`: false when either side is NaN. */
  predicate WithinBound(distance: JsValue, searchRadius: JsValue) {
    distance.Num? && searchRadius.Num? && distance.n <= searchRadius.n
  }

  /** A driver whose `location.coordinates` is an array of length 2 (others are skipped). */
  predicate WellFormed(driver: JsValue) {
    var location := Field(driver, "location");
    Truthy(location)
    && Field(location, "coordinates").Arr? && |Field(location, "coordinates").elems| == 2
  }

  /** The driver coordinates in stored order, `[lng, lat]`. */
  function Coordinates(driver: JsValue): seq<JsValue>
    requires WellFormed(driver)
  {
    Field(Field(driver, "location"), "coordinates").elems
  }

  /**
   * Whether the loop pushes this driver: well-formed, and its distance from the client,
   * computed as `calculateDistance(lat, lng, driverLat, driverLng)`, within the radius.
   */
  predicate Keeps(client: JsValue, driver: JsValue, distance: Distance) {
    WellFormed(driver)
    && var c := Coordinates(driver);
    WithinBound(CalculateDistance(distance, Field(client, "lat"), Field(client, "lng"), c[1], c[0]),
                SearchRadius(Field(client, "radius")))
  }

  /**
   * The `forEach` loop over `drivers`, as a function of the drivers seen so far: a null or
   * undefined driver makes `driver.location` throw; a kept driver is pushed at the end.
   */
  function Scan(client: JsValue, drivers: seq<JsValue>, distance: Distance): Result<seq<JsValue>, Thrown>
    decreases |drivers|
  {
    if drivers == [] then Ok([])
    else
      match Scan(client, drivers[..|drivers| - 1], distance)
      case Err(e) => Err(e)
      case Ok(kept) =>
        var d := drivers[|drivers| - 1];
        if Nullish(d) then Err(TypeErr(d, "location"))
        else if Keeps(client, d, distance) then Ok(kept + [d])
        else Ok(kept)
  }

  /**
   * `getNearbyDrivers`: `const { lat, lng, radius } = clientLocation` throws first when
   * `clientLocation` is null or undefined.
   */
  function Nearby(client: JsValue, drivers: seq<JsValue>, distance: Distance): Result<seq<JsValue>, Thrown> {
    if Nullish(client) then Err(ClientDestructureErr(client)) else Scan(client, drivers, distance)
  }

  /** The error of destructuring `lat` out of a null or undefined `clientLocation`. */
  function ClientDestructureErr(client: JsValue): Thrown {
    DestructureErr(client, "lat", "clientLocation")
  }

  /** V8's message for that error on undefined, as the socket handlers pass it on. */
  lemma ClientDestructureMessage()
    ensures Message(ClientDestructureErr(Undefined))
         == "Cannot destructure property 'lat' of 'clientLocation' as it is undefined."
  {
    var m1 := "Cannot destructure property '" + "lat";
    assert m1 == "Cannot destructure property 'lat";
    var m2 := m1 + "' of '" + "clientLocation";
    assert m2 == "Cannot destructure property 'lat' of 'clientLocation";
    var m3 := m2 + "' as it is " + "undefined";
    assert m3 == "Cannot destructure property 'lat' of 'clientLocation' as it is undefined";
    assert m3 + "." == "Cannot destructure property 'lat' of 'clientLocation' as it is undefined.";
  }

  /** `getNearbyDrivers(clientLocation, activeDrivers)`, the loop pushing into `nearbyDrivers`. */
  method GetNearbyDrivers(client: JsValue, drivers: seq<JsValue>, distance: Distance)
    returns (r: Result<seq<JsValue>, Thrown>)
    ensures r == Nearby(client, drivers, distance)
  {
    if Nullish(client) {
      return Err(ClientDestructureErr(client));
    }
    var nearbyDrivers: seq<JsValue> := [];
    var i := 0;
    while i < |drivers|
      invariant 0 <= i <= |drivers|
      invariant Scan(client, drivers[..i], distance) == Ok(nearbyDrivers)
    {
      var driver := drivers[i];
      assert drivers[..i + 1][..i] == drivers[..i];
      if Nullish(driver) {
        assert Scan(client, drivers[..i + 1], distance).Err?;
        ScanErrSticks(client, drivers[..i + 1], drivers[i + 1..], distance);
        assert drivers[..i + 1] + drivers[i + 1..] == drivers;
        return Err(TypeErr(driver, "location"));
      }
      if Keeps(client, driver, distance) {
        nearbyDrivers := nearbyDrivers + [driver];
      }
      i := i + 1;
    }
    assert drivers[..i] == drivers;
    r := Ok(nearbyDrivers);
  }

  /** Once the loop has thrown, later drivers do not change the outcome. */
  lemma {:induction false} ScanErrSticks(client: JsValue, done: seq<JsValue>, rest: seq<JsValue>, distance: Distance)
    requires Scan(client, done, distance).Err?
    ensures Scan(client, done + rest, distance) == Scan(client, done, distance)
    decreases |rest|
  {
    if rest != [] {
      var whole := done + rest;
      var front := done + rest[..|rest| - 1];
      assert whole[..|whole| - 1] == front;
      ScanErrSticks(client, done, rest[..|rest| - 1], distance);
      assert Scan(client, front, distance).Err?;
    } else {
      assert done + rest == done;
    }
  }

  /** The loop throws exactly when some driver is null or undefined. */
  lemma {:induction false} ScanFailsIffNullish(client: JsValue, drivers: seq<JsValue>, distance: Distance)
    ensures Scan(client, drivers, distance).Err? <==> exists i :: 0 <= i < |drivers| && Nullish(drivers[i])
    decreases |drivers|
  {
    if drivers != [] {
      var front := drivers[..|drivers| - 1];
      ScanFailsIffNullish(client, front, distance);
      if exists i :: 0 <= i < |front| && Nullish(front[i]) {
        var i :| 0 <= i < |front| && Nullish(front[i]);
        assert Nullish(drivers[i]);
      }
      if exists i :: 0 <= i < |drivers| && Nullish(drivers[i]) {
        var i :| 0 <= i < |drivers| && Nullish(drivers[i]);
        if i < |front| {
          assert Nullish(front[i]);
        }
      }
    }
  }

  /**
   * On success the result is the input with the dropped drivers deleted: a subsequence in
   * the original order (no ranking by distance), holding every kept driver as often as the
   * input does and no other driver.
   */
  lemma {:induction false} ScanIsFilter(client: JsValue, drivers: seq<JsValue>, distance: Distance)
    requires Scan(client, drivers, distance).Ok?
    ensures var kept := Scan(client, drivers, distance).value;
      Seqs.IsSubsequence(kept, drivers)
      && forall d :: multiset(kept)[d] == if Keeps(client, d, distance) then multiset(drivers)[d] else 0
    decreases |drivers|
  {
    if drivers != [] {
      var front := drivers[..|drivers| - 1];
      var last := drivers[|drivers| - 1];
      assert front + [last] == drivers;
      ScanIsFilter(client, front, distance);
      var kept := Scan(client, front, distance).value;
      if Keeps(client, last, distance) {
        assert (kept + [last])[..|kept|] == kept;
      } else {
        Seqs.SubsequenceExtend(kept, front, last);
      }
    }
  }

  /** Membership: a driver is returned iff it is in the input, well-formed and within the radius. */
  lemma NearbyMembership(client: JsValue, drivers: seq<JsValue>, distance: Distance, d: JsValue)
    requires Nearby(client, drivers, distance).Ok?
    ensures d in Nearby(client, drivers, distance).value <==> d in drivers && Keeps(client, d, distance)
  {
    ScanIsFilter(client, drivers, distance);
    var kept := Scan(client, drivers, distance).value;
    assert Nearby(client, drivers, distance).value == kept;
    assert d in kept <==> multiset(kept)[d] > 0;
    assert d in drivers <==> multiset(drivers)[d] > 0;
  }

  /**
   * The bound is inclusive, the coordinates are read as `[lng, lat]`, and a radius that is
   * not a number falls back to 5: for numeric positions, a well-formed driver whose distance,
   * computed as (clientLat, clientLng, driverLat, driverLng), equals the radius is kept.
   * Any position that `Number` turns into NaN (a missing client `lat`, say) keeps nothing.
   */
  lemma KeepsExactly(client: JsValue, driverLng: JsValue, driverLat: JsValue, distance: Distance, more: map<string, JsValue>)
    ensures var driver := Obj(more["location" := Obj(map["coordinates" := Arr([driverLng, driverLat])])]);
      var lat, lng := ToNumber(Field(client, "lat")), ToNumber(Field(client, "lng"));
      var dLat, dLng := ToNumber(driverLat), ToNumber(driverLng);
      var radius := Field(client, "radius");
      && (lat.Num? && lng.Num? && dLat.Num? && dLng.Num? ==>
            var d := distance(lat.n, lng.n, dLat.n, dLng.n);
            && (radius.Num? ==> (Keeps(client, driver, distance) <==> d <= radius.n))
            && (!IsNumber(radius) ==> (Keeps(client, driver, distance) <==> d <= 5.0)))
      && (lat.NaN? || lng.NaN? || dLat.NaN? || dLng.NaN? ==> !Keeps(client, driver, distance))
      && (radius.NaN? ==> !Keeps(client, driver, distance))
  {
  }

  /**
   * A client location whose `lat` or `lng` is not numeric (for instance absent) gets no
   * driver at all: every distance is NaN, and `NaN <= searchRadius` is false.
   */
  lemma {:induction false} UnlocatedClientGetsNone(client: JsValue, drivers: seq<JsValue>, distance: Distance)
    requires ToNumber(Field(client, "lat")).NaN? || ToNumber(Field(client, "lng")).NaN?
    requires Scan(client, drivers, distance).Ok?
    ensures Scan(client, drivers, distance) == Ok([])
    decreases |drivers|
  {
    if drivers != [] {
      UnlocatedClientGetsNone(client, drivers[..|drivers| - 1], distance);
    }
  }

  /** A driver without a two-element `location.coordinates` array is skipped, not an error. */
  lemma MalformedSkipped(client: JsValue, drivers: seq<JsValue>, bad: JsValue, distance: Distance)
    requires !Nullish(client) && !Nullish(bad) && !WellFormed(bad)
    requires Scan(client, drivers, distance).Ok?
    ensures Nearby(client, drivers + [bad], distance) == Scan(client, drivers, distance)
  {
    assert (drivers + [bad])[..|drivers|] == drivers;
  }

  /** A stored driver at `[lng, lat]`. */
  function DriverAt(lng: real, lat: real): JsValue {
    Obj(map["location" := Obj(map["coordinates" := Arr([Num(lng), Num(lat)])])])
  }

  /** A driver at `[lng, lat]` within the default radius of a client at (0, 0) is kept. */
  lemma KeptNearOrigin(client: JsValue, distance: Distance, lng: real, lat: real)
    requires client == Obj(map["lat" := Num(0.0), "lng" := Num(0.0)])
    requires distance(0.0, 0.0, lat, lng) <= 5.0
    ensures Keeps(client, DriverAt(lng, lat), distance)
  {
    assert Coordinates(DriverAt(lng, lat)) == [Num(lng), Num(lat)];
    assert Field(client, "radius") == Undefined;
    assert CalculateDistance(distance, Num(0.0), Num(0.0), Num(lat), Num(lng)) == Num(distance(0.0, 0.0, lat, lng));
  }

  /**
   * The result is not sorted by distance: for a client at (0, 0), when the first driver is
   * 4 km away and the second 1 km, both are returned, the farther one first.
   */
  lemma NotRankedByDistance(client: JsValue, distance: Distance)
    requires client == Obj(map["lat" := Num(0.0), "lng" := Num(0.0)])
    requires distance(0.0, 0.0, 20.0, 10.0) == 4.0
    requires distance(0.0, 0.0, 21.0, 11.0) == 1.0
    ensures Nearby(client, [DriverAt(10.0, 20.0), DriverAt(11.0, 21.0)], distance)
         == Ok([DriverAt(10.0, 20.0), DriverAt(11.0, 21.0)])
  {
    var far, near := DriverAt(10.0, 20.0), DriverAt(11.0, 21.0);
    KeptNearOrigin(client, distance, 10.0, 20.0);
    KeptNearOrigin(client, distance, 11.0, 21.0);
    assert [far][..0] == [];
    assert [] + [far] == [far];
    assert Scan(client, [far], distance) == Ok([far]);
    var both := [far, near];
    assert both[..|both| - 1] == [far];
    assert Scan(client, both, distance) == Ok([far] + [near]);
    assert [far] + [near] == both;
  }

  /** A driver about to be saved by `createDriver`. */
  datatype DriverRecord = DriverRecord(
    name: JsValue,
    locationType: string,
    coordinates: seq<JsValue>,
    available: bool,
    rating: JsValue)

  /** An HTTP error reply. */
  datatype HttpError = HttpError(code: int, message: string)

  /**
   * `createDriver`'s guard and record construction: a body whose `name`, `lng` or `lat` is
   * falsy is answered 400 and nothing is built; destructuring a null body throws (answered 500).
   */
  function CreateDriver(body: JsValue): Result<DriverRecord, HttpError> {
    if Nullish(body) then Err(HttpError(500, "Error creating driver"))
    else
      var name, lng, lat, rating := Field(body, "name"), Field(body, "lng"), Field(body, "lat"), Field(body, "rating");
      if !Truthy(name) || !Truthy(lng) || !Truthy(lat) then
        Err(HttpError(400, "Name, longitude, and latitude are required"))
      else
        Ok(DriverRecord(name, "Point", [ToNumber(lng), ToNumber(lat)], true,
                        if Truthy(rating) then rating else Num(5.0)))
  }

  /**
   * The guard accepts a body exactly when it is an object whose name, longitude and latitude
   * are all truthy; so a coordinate of 0 (or "", or NaN) is rejected with 400.
   */
  lemma CreateDriverGuard(body: JsValue)
    requires !Nullish(body)
    ensures CreateDriver(body).Ok? <==>
      body.Obj? && "name" in body.fields && "lng" in body.fields && "lat" in body.fields
      && Truthy(body.fields["name"]) && Truthy(body.fields["lng"]) && Truthy(body.fields["lat"])
    ensures CreateDriver(body).Err? ==> CreateDriver(body).error.code == 400
  {
  }

  /** A numeric 0 longitude or latitude is rejected. */
  lemma CreateDriverRejectsZero(name: string, x: real)
    requires name != ""
    ensures CreateDriver(Obj(map["name" := Str(name), "lng" := Num(0.0), "lat" := Num(x)])) == Err(HttpError(400, "Name, longitude, and latitude are required"))
    ensures CreateDriver(Obj(map["name" := Str(name), "lng" := Num(x), "lat" := Num(0.0)])) == Err(HttpError(400, "Name, longitude, and latitude are required"))
  {
  }

  /**
   * A created driver is an available Point at `[Number(lng), Number(lat)]`, rated with the
   * given rating, or 5.0 when that is missing or falsy.
   */
  lemma CreatedDriverShape(body: JsValue)
    requires CreateDriver(body).Ok?
    ensures var rec := CreateDriver(body).value;
      && rec.locationType == "Point" && rec.available
      && rec.coordinates == [ToNumber(Field(body, "lng")), ToNumber(Field(body, "lat"))]
      && IsNumber(rec.coordinates[0]) && IsNumber(rec.coordinates[1])
      && rec.name == Field(body, "name") && Truthy(rec.name)
      && (Truthy(Field(body, "rating")) ==> rec.rating == Field(body, "rating"))
      && (!Truthy(Field(body, "rating")) ==> rec.rating == Num(5.0))
  {
    ToNumberIsNumber(Field(body, "lng"));
    ToNumberIsNumber(Field(body, "lat"));
  }
}
