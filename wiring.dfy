/**
 * The client pages against the server handlers they talk to: what each page sends, what the
 * server does with it, and what the page then shows. The pages and handlers are modelled as
 * written. The round trips over the socket hold for a transport that forwards the ack
 * callback to the server and back; the client's socket wrapper
 * (client/src/services/socket.js) drops that callback, and is not part of this model.
 */
module Wiring {
  import opened Wrappers
  import opened Js
  import Validation
  import DriverController
  import Socket
  import RideModel
  import RideController
  import CoordinateText
  import NearbyDriversPage
  import RideRequestPage

  /**
   * The nearby-drivers query never passes the server's location check: it sends `lng`, `lat`
   * and `radius`, while the check wants a `coordinates` pair.
   */
  lemma QueryFailsLocationCheck(page: NearbyDriversPage.Page)
    requires CoordinateText.ValidCoordinates(page.location)
    ensures !Validation.ValidateLocation(NearbyDriversPage.FetchNearbyDrivers(page).1.value.payload)
  {
    NearbyDriversPage.FetchGuard(page);
    NearbyDriversPage.FetchQuery(page);
    var query := NearbyDriversPage.FetchNearbyDrivers(page).1.value.payload;
    assert Field(query, "coordinates") == Undefined;
  }

  /**
   * A query for any accepted location text is refused by the connection, and the page then
   * shows an empty driver list, for a transport that forwards the ack.
   */
  method NearbyQueryRoundTrip(conn: Socket.Connection, page: NearbyDriversPage.Page)
    returns (ack: Socket.Ack, shown: NearbyDriversPage.Page)
    requires CoordinateText.ValidCoordinates(page.location)
    ensures ack == Socket.ErrorAck(Error("Invalid client coordinates"))
    ensures shown == NearbyDriversPage.FetchNearbyDrivers(page).0.(drivers := Arr([]), loadingDrivers := false)
  {
    var fetched := NearbyDriversPage.FetchNearbyDrivers(page);
    NearbyDriversPage.FetchGuard(page);
    QueryFailsLocationCheck(page);
    ack := conn.GetNearbyDrivers(fetched.1.value.payload);
    NearbyDriversPage.DriversAnsweredEmpty(fetched.0, Socket.AckPayload(ack));
    shown := NearbyDriversPage.DriversAnswered(fetched.0, Socket.AckPayload(ack)).value;
  }

  /**
   * The page's ride request has no `pickupLocation`, so the server's candidate lookup
   * destructures `lat` out of undefined and throws, whatever drivers are online.
   */
  lemma PageRequestHasNoPickup(page: NearbyDriversPage.Page, driver: JsValue, userId: Option<string>,
                               drivers: seq<JsValue>, distance: DriverController.Distance)
    requires NearbyDriversPage.RideRequestPayload(page, driver, userId).Ok?
    ensures Socket.Candidates(NearbyDriversPage.RideRequestPayload(page, driver, userId).value, drivers, distance)
      == Err(DestructureErr(Undefined, "lat", "clientLocation"))
  {
    NearbyDriversPage.PayloadHasNoPickup(page, driver, userId);
  }

  /** The message the page's ride request is answered with. */
  const DestructureMessage := "Cannot destructure property 'lat' of 'clientLocation' as it is undefined."

  /** The error ack for the missing pickup carries V8's destructuring message. */
  lemma PickupAckMessage()
    ensures Field(Socket.AckPayload(Socket.ErrorAck(DestructureErr(Undefined, "lat", "clientLocation"))), "message")
         == Str(DestructureMessage)
  {
    DriverController.ClientDestructureMessage();
  }

  /**
   * The page's ride request is acked with V8's destructuring error, stores and sends
   * nothing, and the page keeps its driver list: the filter that removes the chosen driver
   * never runs. This holds for a transport that forwards the ack.
   */
  method PageRideRequestRoundTrip(conn: Socket.Connection, page: NearbyDriversPage.Page, driver: JsValue,
                                  userId: Option<string>, rideId: string, now: int)
    returns (ack: Socket.Ack, shown: NearbyDriversPage.Page)
    requires conn.Valid() && NearbyDriversPage.RideRequestPayload(page, driver, userId).Ok?
    modifies conn, conn.hub
    ensures ack == Socket.ErrorAck(DestructureErr(Undefined, "lat", "clientLocation"))
    ensures Field(Socket.AckPayload(ack), "message") == Str(DestructureMessage)
    ensures conn.activeRides == old(conn.activeRides) && conn.timers == old(conn.timers)
    ensures conn.hub.outbox == old(conn.hub.outbox)
    ensures shown.drivers == page.drivers
  {
    var payload := NearbyDriversPage.RideRequestPayload(page, driver, userId).value;
    PageRequestHasNoPickup(page, driver, userId, conn.hub.store.GetAll(), conn.hub.distance);
    ack := conn.RideRequest(payload, rideId, now);
    PickupAckMessage();
    var answered := NearbyDriversPage.RideAnswered(page, page.drivers, driver, Socket.AckPayload(ack));
    shown := answered.value;
  }

  /**
   * What `requestRide` reads from the posted JSON: a string `passengerId` and an array of
   * numbers as `location`; anything else counts as not given.
   */
  function RequestFields(body: JsValue): (Option<RideModel.Id>, Option<seq<real>>) {
    var passengerId := Field(body, "passengerId");
    var location := Field(body, "location");
    (if passengerId.Str? then Some(passengerId.s) else None,
     if location.Arr? && forall i :: 0 <= i < |location.elems| ==> location.elems[i].Num?
     then Some(seq(|location.elems|, i requires 0 <= i < |location.elems| && location.elems[i].Num? => location.elems[i].n))
     else None)
  }

  /** A body with a string passenger id and a pair of numbers is read as those values. */
  lemma RequestFieldsOfPair(body: JsValue, passengerId: string, first: JsValue, second: JsValue)
    requires Field(body, "passengerId") == Str(passengerId)
    requires Field(body, "location") == Arr([first, second]) && first.Num? && second.Num?
    ensures RequestFields(body) == (Some(passengerId), Some([first.n, second.n]))
  {
    var location := Field(body, "location");
    assert forall i :: 0 <= i < |location.elems| ==> location.elems[i].Num?;
    var numbers := RequestFields(body).1.value;
    assert |numbers| == 2 && numbers[0] == first.n && numbers[1] == second.n;
    assert numbers == [first.n, second.n];
  }

  /** What the server reads from the form's body: the fixed passenger id and the pickup pair. */
  lemma PostedFields(page: RideRequestPage.Page, pickup: string, dropoff: string)
    requires RideRequestPage.Submit(page, pickup, dropoff).1.Some?
    ensures var pair := CoordinateText.NumberPair(pickup);
      && AbsAtMost(pair.0, 90.0) && AbsAtMost(pair.1, 180.0)
      && RequestFields(RideRequestPage.Submit(page, pickup, dropoff).1.value.body)
         == (Some("passenger-id"), Some([pair.0.n, pair.1.n]))
  {
    RideRequestPage.SubmitPostsPickup(page, pickup, dropoff);
    var body := RideRequestPage.Submit(page, pickup, dropoff).1.value.body;
    var pair := CoordinateText.NumberPair(pickup);
    RequestFieldsOfPair(body, "passenger-id", pair.0, pair.1);
  }

  /**
   * An accepted request form is answered 201 exactly when the pickup text's second number,
   * which the geo index reads as the latitude, is within [-90, 90]: the form takes the first
   * number within [-90, 90] and the second within [-180, 180], so a text written latitude
   * first, as the form requires, with a longitude beyond 90 is refused on save. A saved ride
   * is pending for the fixed passenger id, at the two numbers in the order typed.
   */
  method RequestFromPage(service: RideController.RideService, page: RideRequestPage.Page,
                         pickup: string, dropoff: string, newId: RideModel.Id, now: int)
    returns (reply: RideController.Reply)
    requires CoordinateText.ValidCoordinates(pickup) && CoordinateText.ValidCoordinates(dropoff)
    requires service.Valid() && newId !in service.rides
    modifies service
    ensures var pair := CoordinateText.NumberPair(pickup);
      reply.code == 201 <==> AbsAtMost(pair.1, 90.0)
    ensures reply.code != 201 ==> reply.code == 500 && service.rides == old(service.rides)
    ensures reply.code == 201 ==> newId in service.rides
    ensures reply.code == 201 ==>
      var ride := service.rides[newId];
      var pair := CoordinateText.NumberPair(pickup);
      && ride.status == RideModel.Pending && ride.passengerId == "passenger-id"
      && |ride.coordinates| == 2
      && Num(ride.coordinates[0]) == pair.0 && Num(ride.coordinates[1]) == pair.1
      && -90.0 <= ride.coordinates[0] <= 90.0 && -90.0 <= ride.coordinates[1] <= 90.0
  {
    RideRequestPage.SubmitGuard(page, pickup, dropoff);
    PostedFields(page, pickup, dropoff);
    var pair := CoordinateText.NumberPair(pickup);
    var fields := RequestFields(RideRequestPage.Submit(page, pickup, dropoff).1.value.body);
    assert fields == (Some("passenger-id"), Some([pair.0.n, pair.1.n]));
    assert RideModel.GeoIndexAccepts([pair.0.n, pair.1.n]) <==> AbsAtMost(pair.1, 90.0);
    reply := service.RequestRide(fields.0, fields.1, newId, now);
  }

  /**
   * The form's own scale, latitude first: "37.7, -122.4" passes the page's check, but its
   * second number is read by the geo index as a latitude of -122.4, so the save fails and
   * the request is answered 500 with nothing stored.
   */
  method LatitudeFirstNotSaved(service: RideController.RideService, page: RideRequestPage.Page,
                               dropoff: string, newId: RideModel.Id, now: int)
    returns (reply: RideController.Reply)
    requires CoordinateText.ValidCoordinates(dropoff)
    requires service.Valid() && newId !in service.rides
    modifies service
    ensures reply.code == 500 && service.rides == old(service.rides)
  {
    CoordinateText.LatitudeFirstAccepted();
    CoordinateText.LatitudeFirstSecondNumber();
    reply := RequestFromPage(service, page, "37.7, -122.4", dropoff, newId, now);
  }
}
