/**
 * The request form of client/src/pages/RideRequest.js, as values: the page state the
 * handlers set, the request the submit handler posts, and the countdown rules.
 */
module RideRequestPage {
  import opened Wrappers
  import opened Js
  import CoordinateText

  const InvalidFormat: string := "Invalid coordinates format. Use 'longitude, latitude'"
  const RequestFailed: string := "Failed to request ride"

  /** The component state the handlers touch. */
  datatype Page = Page(rideStatus: JsValue, countdown: int, error: JsValue, loading: bool)

  /** `api.post(path, body)` */
  datatype Post = Post(path: string, body: JsValue)

  /** The state before any interaction. */
  const Initial: Page := Page(Null, 30, Str(""), false)

  /**
   * `handleRequestRide` up to the post: both texts must be accepted coordinates, otherwise
   * the error is set and nothing is posted. The body carries the pickup pair only.
   */
  function Submit(page: Page, pickup: string, dropoff: string): (Page, Option<Post>) {
    if !CoordinateText.ValidCoordinates(pickup) || !CoordinateText.ValidCoordinates(dropoff) then
      (page.(error := Str(InvalidFormat)), None)
    else
      var (pickupLng, pickupLat) := CoordinateText.NumberPair(pickup);
      var body := Obj(map["passengerId" := Str("passenger-id"), "location" := Arr([pickupLng, pickupLat])]);
      (page.(error := Str(""), loading := true), Some(Post("/rides/request", body)))
  }

  /**
   * The rest of `handleRequestRide` once the post settles: the answer's data becomes the ride
   * status, marked pending at `now`, and the countdown restarts at 30; a failure shows the
   * server's message, or a fixed one when there is none.
   */
  function Settle(page: Page, response: Result<JsValue, JsValue>, now: int): Page {
    match response
    case Ok(data) =>
      var status := Obj(Spread(data)["status" := Str("pending")]["createdAt" := Date(now)]);
      page.(rideStatus := status, countdown := 30, loading := false)
    case Err(failure) =>
      var message := Field(Field(failure, "data"), "message");
      page.(error := if Truthy(message) then message else Str(RequestFailed), loading := false)
  }

  /**
   * `handleRideUpdate`: the update becomes the ride status; any status but "pending" stops
   * the countdown. Reading the status of a null or undefined update throws.
   */
  function RideUpdate(page: Page, update: JsValue): (Page, Option<Thrown>) {
    var page' := page.(rideStatus := update);
    match Get(update, "status")
    case Err(e) => (page', Some(e))
    case Ok(status) =>
      (if StrictEquals(status, Str("pending")) then page' else page'.(countdown := 0), None)
  }

  /** One firing of the interval: while the status is pending and time remains, one second less. */
  function Tick(page: Page): Page {
    if StrictEquals(Field(page.rideStatus, "status"), Str("pending")) && page.countdown > 0 then
      page.(countdown := page.countdown - 1)
    else page
  }

  predicate CountdownInRange(page: Page) {
    0 <= page.countdown <= 30
  }

  /** A request is posted exactly when both texts are accepted; otherwise the error says why. */
  lemma SubmitGuard(page: Page, pickup: string, dropoff: string)
    ensures Submit(page, pickup, dropoff).1.Some? <==>
      CoordinateText.ValidCoordinates(pickup) && CoordinateText.ValidCoordinates(dropoff)
    ensures Submit(page, pickup, dropoff).1.None? ==>
      Submit(page, pickup, dropoff).0 == page.(error := Str(InvalidFormat))
  {
  }

  /**
   * The posted body holds the fixed passenger id and the pickup's two fields as finite
   * numbers, the one the form calls longitude within [-90, 90]; the dropoff is not sent.
   */
  lemma SubmitPostsPickup(page: Page, pickup: string, dropoff: string)
    requires Submit(page, pickup, dropoff).1.Some?
    ensures var post := Submit(page, pickup, dropoff).1.value;
      && post.path == "/rides/request"
      && post.body.Obj? && post.body.fields.Keys == {"passengerId", "location"}
      && post.body.fields["passengerId"] == Str("passenger-id")
      && var location := post.body.fields["location"];
      location.Arr? && location.elems == [CoordinateText.NumberPair(pickup).0, CoordinateText.NumberPair(pickup).1]
      && AbsAtMost(location.elems[0], 90.0) && AbsAtMost(location.elems[1], 180.0)
  {
    CoordinateText.NumberPairBounds(pickup);
  }

  /** A non-pending update stops the countdown; a pending one leaves it. */
  lemma RideUpdateCountdown(page: Page, update: JsValue)
    requires !Nullish(update)
    ensures var (page', thrown) := RideUpdate(page, update);
      && thrown.None? && page'.rideStatus == update
      && page'.countdown == if Field(update, "status") == Str("pending") then page.countdown else 0
  {
  }

  /** A successful request restarts the countdown at 30 with a pending status. */
  lemma SettleRestarts(page: Page, data: JsValue, now: int)
    ensures Settle(page, Ok(data), now).countdown == 30
    ensures Field(Settle(page, Ok(data), now).rideStatus, "status") == Str("pending")
    ensures !Settle(page, Ok(data), now).loading
  {
  }

  /** The countdown never leaves [0, 30], whatever the handlers do. */
  lemma CountdownStaysInRange(page: Page, pickup: string, dropoff: string, response: Result<JsValue, JsValue>,
                              now: int, update: JsValue)
    requires CountdownInRange(page)
    ensures CountdownInRange(Initial)
    ensures CountdownInRange(Submit(page, pickup, dropoff).0)
    ensures CountdownInRange(Settle(page, response, now))
    ensures CountdownInRange(RideUpdate(page, update).0)
    ensures CountdownInRange(Tick(page))
  {
  }
}
