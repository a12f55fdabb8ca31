# Ride sharing: dispatch, ride states and input checks

This project models the core of a small ride-sharing system (a Node/Express server with
socket.io, and a React client) in Dafny and proves properties of that model.

- **Live driver registry** (`Socket`). A class `DriverStore` models the server-wide store of
  the last data each driver socket sent. It is an insertion-ordered JavaScript `Map`: a key
  order plus a map.
  - A `Hub` holds that store and an outbox of every event emitted.
  - Each `Connection` has its own `activeRides` map and the ride timers it has armed.
  - The handlers `update_location`, `get_nearby_drivers`, `ride_request` and `disconnect` are
    methods. The 30-second timeout callback is an explicit `Expire(rideId)` step.
- **Proximity filter** (`DriverController`). `getNearbyDrivers` is a loop proved equal to a
  recursive specification `Nearby`. Facts about `Nearby` are proved as lemmas: the inclusive
  bound, the default radius of 5, malformed entries skipped, and a subsequence in input order.
  The haversine distance is a function the caller supplies. `createDriver`'s guard and
  record construction are a function.
- **Ride status machine** (`RideModel`, `RideController`).
  - The Mongoose schema becomes a datatype, with `NewRide` applying the schema's required
    fields, enums and defaults.
  - A class `RideService` holds the rides (by id, in insertion order) and each driver's
    `available` flag.
  - Request, accept, cancel and complete are methods that change it. The active and history
    queries are filters, plus a stable newest-first sort.
- **Input checks** (`Validation`, `CoordinateText`, `SignUpPage`).
  - The server's four validators are predicates, with exact characterisations.
  - The client's coordinate regular expression and e-mail regular expression are each
    written twice. One version is a ghost predicate saying what the pattern denotes. The
    other is a left-to-right recogniser. The two are proved equivalent on every string.
- **Client pages** (`RideRequestPage`, `NearbyDriversPage`, `SignUpPage`). Page state
  becomes datatypes. Handlers become functions from state to new state plus the request or
  emit they send.
- **Wiring** (`Wiring`). Facts about the pages and the server as they are put together:
  - The nearby-drivers query never passes the server's location check.
  - The page's ride request lacks the `pickupLocation` that the server reads.
  - The request form posts only the pickup pair, first number first.

The JavaScript behaviour the handlers depend on is modelled in `Js`: values, truthiness,
property reads that throw on `null`/`undefined`, thrown errors and their messages, `split`,
`trim`, `\s` and `Number(text)`.

The model follows the code as written, including where it departs from what a dispatch
service would be expected to do:

- Drivers are not ranked by distance.
- There is no `expired` status.
- Cancelling works from any status.
- `ride_request` does not call `validateRideRequest`.
- `get_nearby_drivers` names an undeclared `drivers`, so every query that passes validation
  is answered with a ReferenceError.
- Candidate rooms are looked up by `socketId`, which the driver dashboard's payload does not
  carry (the store keeps whatever `update_location` receives).
- A client location without numeric `lat` and `lng` makes every distance NaN, so no driver
  is a candidate.
- Destructuring a missing `pickupLocation` throws V8's destructuring TypeError, whose message
  the ride request's ack carries.

## Model

| member | source | states |
|---|---|---|
| Socket.DriverStore.Get | server/src/socket.js:9 | the stored data for a known id, undefined for any other |
| Socket.DriverStore.Set | server/src/socket.js:10 | the entry for the id becomes the data, the others stay; a new id goes last in the order, an existing one keeps its place |
| Socket.DriverStore.Delete | server/src/socket.js:11 | the entry is removed and the id leaves the order; deleting an absent id changes nothing |
| Socket.DriverStore.GetAll | server/src/socket.js:12 | one value per stored id, in insertion order, each the entry of that id; a value is listed iff it is stored |
| Socket.Hub.SendNewRide | server/src/socket.js:84-86 | the outbox grows by exactly `FanOut`: one `new_ride` emit per candidate, in candidate order |
| Socket.Connection.UpdateLocation | server/src/socket.js:28-41 | valid data: only this socket's entry is set, a new id appended to the key order and a known one kept in place, then the whole store is broadcast; invalid: the store and its order are unchanged and one `error` with code LOCATION_UPDATE_ERROR goes to this socket only |
| Socket.Connection.GetNearbyDrivers | server/src/socket.js:44-58 | an invalid location is answered "Invalid client coordinates", a valid one a ReferenceError on `drivers`; never success, no state change |
| Socket.Connection.RideRequest | server/src/socket.js:63-94 | a failed candidate lookup (`Candidates`: reading `pickupLocation`, then `getNearbyDrivers`) gives an error ack with what was thrown and changes nothing; otherwise the pending ride is stored under the id, its timer armed, fanned out to every candidate, and the ack is pending even with no candidates |
| Socket.Connection.Expire | server/src/socket.js:77-80 | exactly that ride id leaves `activeRides`, one armed timer is used up, and `ride_timeout` with the id goes to this socket |
| Socket.Connection.Disconnect | server/src/socket.js:97-101 | this socket's entry is gone and its id has left the key order, an already absent one leaves the store as it was, and the store is broadcast |
| Socket.CandidatesNeedObject | server/src/socket.js:67-70 | the lookup `Candidates` succeeds only for an object whose `pickupLocation` is present and not null |
| Socket.PendingRideFields | server/src/socket.js:72-76 | the stored ride `PendingRide` has status pending, the generated ride id and the creation time, overriding the request's fields, and keeps every other field |
| Socket.FanOutEach | server/src/socket.js:84-86 | `FanOut` sends one emit per candidate, the i-th to the room named by the i-th candidate's `socketId` |
| Socket.FanOutWithoutSocketIds | server/src/socket.js:85 | candidates with no `socketId` are all addressed to the room `undefined` |
| DriverController.GetNearbyDrivers | server/src/controllers/driverController.js:19-41 | the loop's result equals the specification `Nearby` |
| DriverController.ScanErrSticks | server/src/controllers/driverController.js:24-38 | once the loop specification `Scan` throws, later drivers do not change the outcome |
| DriverController.ScanFailsIffNullish | server/src/controllers/driverController.js:24-25 | `Scan`, the `forEach` loop, throws iff some driver is null or undefined |
| DriverController.ScanIsFilter | server/src/controllers/driverController.js:24-40 | `Scan`'s result is a subsequence of the input in input order, holding each driver that `Keeps` admits as often as the input and nothing else |
| DriverController.NearbyMembership | server/src/controllers/driverController.js:19-41 | when `Nearby` (destructuring, then the loop) succeeds, a driver is returned iff it is in the input, well-formed and within the radius |
| DriverController.ClientDestructureMessage | server/src/controllers/driverController.js:20 | destructuring `lat` out of an undefined `clientLocation` throws "Cannot destructure property 'lat' of 'clientLocation' as it is undefined." |
| DriverController.KeepsExactly | server/src/controllers/driverController.js:4-32 | `Keeps` reads the coordinates as [lng, lat] and calls the distance as (clientLat, clientLng, driverLat, driverLng); the bound is inclusive and a non-number radius means 5; a position that converts to NaN, or a NaN radius, keeps nothing |
| DriverController.UnlocatedClientGetsNone | server/src/controllers/driverController.js:6-14 | a client location whose `lat` or `lng` is not numeric gets no driver, since every distance is NaN |
| DriverController.MalformedSkipped | server/src/controllers/driverController.js:25-37 | a driver without a two-element coordinates array is skipped, not an error |
| DriverController.NotRankedByDistance | server/src/controllers/driverController.js:24-40 | for a client at (0, 0), a driver 4 km away listed before one 1 km away stays first: there is no sorting by distance |
| DriverController.CreateDriverGuard | server/src/controllers/driverController.js:49-52 | `CreateDriver` builds a record iff name, lng and lat are all present and truthy; otherwise the answer is 400 |
| DriverController.CreateDriverRejectsZero | server/src/controllers/driverController.js:50-51 | a numeric 0 longitude or latitude is rejected with 400 |
| DriverController.CreatedDriverShape | server/src/controllers/driverController.js:53-58 | an available Point at [Number(lng), Number(lat)], both numbers, rated with the given rating or 5.0 when it is falsy |
| RideModel.StatusNamesRoundTrip | server/src/models/Ride.js:24-28 | naming then parsing a status is the identity, and the enum accepts exactly the five names |
| RideModel.NoExpiredStatus | server/src/models/Ride.js:26 | "expired" is not a status |
| RideModel.NewRide | server/src/models/Ride.js:3-33 | the schema's checks: refused iff passengerId or coordinates is missing, or a given type is not Point, or a given status is not in the enum; otherwise the given id, passenger, driver and coordinates are kept |
| RideModel.RideDefaults | server/src/models/Ride.js:24-32 | without status or time the ride is pending, created now, with no driver |
| RideModel.RideGivenValuesKept | server/src/models/Ride.js:24-32 | a given status name and creation time are kept |
| RideModel.ExpiredRefused | server/src/models/Ride.js:24-28 | a ride given status "expired" is refused |
| RideModel.Save | server/src/models/Ride.js:34 | a save fails iff the schema refuses the document or the `2dsphere` index refuses its Point; a successful save stores exactly the document the schema built |
| RideModel.SaveReadsLongitudeLatitude | server/src/models/Ride.js:13-34 | a pending ride at `[first, second]` is saved iff the first is within [-180, 180] and the second, read as the latitude, within [-90, 90] |
| RideController.RideService.RequestRide | server/src/controllers/rideController.js:7-21 | 201 iff passenger and location are given and the geo index accepts the location, storing a pending Point ride at those coordinates, created now, with no driver; otherwise 500 and nothing saved |
| RideController.RideService.AcceptRide | server/src/controllers/rideController.js:24-43 | unknown: 404; not pending: 400; both change nothing; pending: accepted by that driver, the driver marked unavailable, nothing else changed |
| RideController.RideService.CancelRide | server/src/controllers/rideController.js:46-59 | any existing ride becomes cancelled whatever its status; unknown: 404 and nothing changed |
| RideController.RideService.CompleteRide | server/src/controllers/rideController.js:62-78 | any existing ride becomes completed; its recorded driver, if any, is available again |
| RideController.RideService.GetActiveRides | server/src/controllers/rideController.js:81-88 | a ride is returned iff it is stored and pending or accepted |
| RideController.RideService.GetRideHistory | server/src/controllers/rideController.js:91-108 | newest first; passenger: exactly that passenger's completed rides; driver: exactly that driver's completed rides; other roles: every ride |
| RideController.FindMembership | server/src/controllers/rideController.js:83 | a ride is found iff it is stored under a listed id and matches the filter |
| RideController.InsertIsPermutation | server/src/controllers/rideController.js:95 | inserting adds exactly that ride |
| RideController.InsertKeepsOrder | server/src/controllers/rideController.js:95 | inserting into a newest-first list keeps it newest first |
| RideController.SortIsPermutationNewestFirst | server/src/controllers/rideController.js:95-103 | the sort returns the same rides, as a multiset, newest first |
| RideController.SecondAcceptFails | server/src/controllers/rideController.js:32-34 | after a successful accept a second accept of the same ride is refused with 400, and the first driver stays recorded |
| Validation.LocationExactly | server/src/utils/validation.js:11-20 | `ValidateLocation`: valid iff `coordinates` is a two-element array of finite numbers, the first within [-180, 180] and the second within [-90, 90] |
| Validation.LocationBoundsAndOrder | server/src/utils/validation.js:18-19 | both bounds inclusive; [100, 0] accepted and [0, 100] refused |
| Validation.LocationRejectsNaN | server/src/utils/validation.js:16-19 | NaN passes `typeof` but never the range test |
| Validation.DriverDataExactly | server/src/utils/validation.js:2-8 | `ValidateDriverData`: valid iff driverId and name are non-empty strings and the location is valid |
| Validation.DriverDataRejectsEmptyStrings | server/src/utils/validation.js:3-6 | an empty driverId or name is refused |
| Validation.RideRequestExactly | server/src/utils/validation.js:22-28 | `ValidateRideRequest`: valid iff passengerId is a non-empty string, the pickup is valid, and the dropoff is absent, falsy or valid |
| Validation.RideRequestDropoffOptional | server/src/utils/validation.js:27 | without a dropoff only passenger and pickup are judged |
| Validation.SocketAuthExactly | server/src/utils/validation.js:30-32 | `ValidateSocketAuth`: the token is accepted iff it is a non-empty string |
| CoordinateText.FirstBodyIff | client/src/pages/RideRequest.js:32 | the recogniser accepts a first field body exactly when it is 0 to 89 with an optional fraction, or 90 with an optional all-zero fraction |
| CoordinateText.SecondBodyIff | client/src/pages/RideRequest.js:32 | the recogniser accepts a second field body exactly when it is 180 with an optional all-zero fraction, or 0 to 179 with an optional fraction |
| CoordinateText.FirstFieldIff | client/src/pages/RideRequest.js:32 | a signed first field is recognised iff the pattern denotes it |
| CoordinateText.SecondFieldIff | client/src/pages/RideRequest.js:32 | a signed second field is recognised iff the pattern denotes it |
| CoordinateText.CoordinatesIff | client/src/pages/RideRequest.js:31-34 | `ValidCoordinates`, the model of `validateCoordinates`, accepts exactly the strings the anchored pattern matches: field, comma, white space, field |
| CoordinateText.FieldValues | client/src/pages/RideRequest.js:32 | a first field is a decimal of magnitude at most 90, a second of magnitude at most 180 |
| CoordinateText.SplitInTwo | client/src/pages/RideRequest.js:66 | an accepted text splits on `,` into exactly two pieces |
| CoordinateText.ConvertPieces | client/src/pages/RideRequest.js:66 | `Number` reads each piece as its field's decimal value, the white space after the comma ignored |
| CoordinateText.NumberPairOfAccepted | client/src/pages/RideRequest.js:66 | `NumberPair`, the split and `Number` of the pickup text: for an accepted text both numbers are finite: the first field's value in [-90, 90], the second's in [-180, 180] |
| CoordinateText.NumberPairBounds | client/src/pages/RideRequest.js:66 | both numbers of an accepted text are finite, within 90 and 180 of zero |
| CoordinateText.RejectsLeadingZero | client/src/pages/RideRequest.js:32 | "05,1" is refused |
| CoordinateText.RejectsBarePoint | client/src/pages/RideRequest.js:32 | "1.,2" is refused |
| CoordinateText.LongitudeFirstRefused | client/src/pages/RideRequest.js:59-66 | "-122.4, 37.7", written longitude first as the form asks, is refused |
| CoordinateText.LatitudeFirstAccepted | client/src/pages/RideRequest.js:32 | the same point written latitude first is accepted |
| CoordinateText.LatitudeFirstSecondNumber | client/src/pages/RideRequest.js:66 | splitting "37.7, -122.4" and applying `Number` gives -122.4 as the second number |
| RideRequestPage.SubmitGuard | client/src/pages/RideRequest.js:56-74 | `Submit`, the form handler: a request is posted iff both texts are accepted; otherwise the error is set and nothing is sent |
| RideRequestPage.SubmitPostsPickup | client/src/pages/RideRequest.js:66-74 | the body holds only the fixed passenger id and the pickup pair, finite and within 90 and 180 of zero; the dropoff is not sent |
| RideRequestPage.RideUpdateCountdown | client/src/pages/RideRequest.js:46-49 | `RideUpdate`: an update becomes the status; a non-pending status sets the countdown to 0, a pending one keeps it |
| RideRequestPage.SettleRestarts | client/src/pages/RideRequest.js:76-81 | `Settle`: a successful request restarts the countdown at 30 with a pending status |
| RideRequestPage.CountdownStaysInRange | client/src/pages/RideRequest.js:36-49 | every handler, `Tick` included, keeps the countdown within [0, 30] |
| NearbyDriversPage.FetchGuard | client/src/pages/NearbyDrivers.js:56-62 | `FetchNearbyDrivers`: a query is emitted iff the text is accepted; the error flag says which |
| NearbyDriversPage.FetchQuery | client/src/pages/NearbyDrivers.js:64-65 | the query holds exactly lng, lat (finite, within 90 and 180) and radius 5, and no `coordinates` |
| NearbyDriversPage.DriversAnsweredEmpty | client/src/pages/NearbyDrivers.js:65-69 | `DriversAnswered`: an answer without truthy data empties the list |
| NearbyDriversPage.PayloadHasNoPickup | client/src/pages/NearbyDrivers.js:72-78 | `RideRequestPayload`: the ride payload has exactly driverId, passengerId and passengerLocation, and no pickupLocation |
| NearbyDriversPage.WithoutDriverFails | client/src/pages/NearbyDrivers.js:83 | the filter throws iff some listed driver is null or undefined |
| NearbyDriversPage.WithoutDriverExactly | client/src/pages/NearbyDrivers.js:83 | `WithoutDriver` removes exactly the drivers with that driverId; the rest stay, as often and in order |
| NearbyDriversPage.OnlySuccessFilters | client/src/pages/NearbyDrivers.js:80-85 | `RideAnswered`: an answer that is not "success" leaves the list as it was |
| SignUpPage.EmailIff | client/src/pages/SignUp.js:37 | the recogniser `ValidEmail` accepts exactly what `^[^\s@]+@[^\s@]+\.[^\s@]+$` matches |
| SignUpPage.EmailExamples | client/src/pages/SignUp.js:37 | "a@b.c" accepted; "a@bc", "a@b@c.d" and "@b.c" refused |
| SignUpPage.MismatchFirst | client/src/pages/SignUp.js:32-35 | mismatched passwords are refused whatever the email |
| SignUpPage.RegisterExactly | client/src/pages/SignUp.js:32-48 | `Submit`: a registration is sent iff the passwords agree and the email is accepted, with body name, email and password only; any refusal carries one of the two messages |
| SignUpPage.ChangeOnlyThatField | client/src/pages/SignUp.js:59-64 | `Change`: the named field takes the value and every other field is unchanged |
| SignUpPage.ChangeKeepsFields | client/src/pages/SignUp.js:59-64 | typing into the four inputs keeps the form's four fields |
| Wiring.QueryFailsLocationCheck | client/src/pages/NearbyDrivers.js:64-65 | the page's query never passes the server's `validateLocation` |
| Wiring.NearbyQueryRoundTrip | server/src/socket.js:44-58 | for a transport that forwards the ack: for any accepted text the server refuses the query and the page shows an empty list |
| Wiring.PageRequestHasNoPickup | server/src/socket.js:67-70 | the page's ride request makes the candidate lookup destructure `lat` out of undefined and throw |
| Wiring.PickupAckMessage | server/src/socket.js:90-92 | the error ack for the missing pickup carries "Cannot destructure property 'lat' of 'clientLocation' as it is undefined." as its message |
| Wiring.PageRideRequestRoundTrip | client/src/pages/NearbyDrivers.js:72-86 | for a transport that forwards the ack: the page's ride request is acked with "Cannot destructure property 'lat' of 'clientLocation' as it is undefined.", stores and emits nothing, and the page keeps its list |
| Wiring.PostedFields | client/src/pages/RideRequest.js:69-74 | the server reads the posted body as the fixed passenger id and the pickup pair |
| Wiring.RequestFromPage | server/src/controllers/rideController.js:9-20 | an accepted form is answered 201 iff the pickup's second number, which the geo index reads as the latitude, is within [-90, 90]; then it is saved in the rides map as a pending ride for "passenger-id" at the pickup's two numbers in the order typed, otherwise 500 and nothing stored |
| Wiring.LatitudeFirstNotSaved | server/src/models/Ride.js:34 | the form's lat-first example "37.7, -122.4" passes the page's check but is answered 500 and nothing is stored |

## Left out

- The haversine formula (server/src/controllers/driverController.js:4-15) is floating-point
  trigonometry. On numeric arguments it is a function the caller supplies, returning a
  finite number; only the conversion of its arguments, and the NaN that a non-numeric one
  produces, are modelled. A NaN that rounding in `Math.sqrt(1 - a)` could produce for
  numeric arguments is not represented.
- Mongo and Redis are not modelled: `getNearbyDriversAPI`, `updateDriverStatus`, the geo and
  Redis services, and the driver model beyond its `available` flag. The collections are maps.
  Save failures other than the schema's required and enum checks and the bounds of the
  `startLocation` index (Ride.js:34) are not modelled. The index's treatment of coordinates
  that are not a pair is not modelled either: they are let through.
- RideController.RideService.RequestRide: Mongoose's casting of `passengerId` to an ObjectId and
  of `location` to `[Number]` is not modelled. Ids are plain strings, and a body field that is
  not a string (or an array of numbers) counts as not given.
- Wiring.RequestFromPage: the ride is saved in the model's map of rides. Mongoose's cast of
  "passenger-id" to an ObjectId is not modelled (see the RequestRide line). The only save
  refusals modelled are the schema's and the geo index's bounds.
- RideController.RideService.GetActiveRides: Mongo's `find` without a sort fixes no order.
  The model returns the rides in insertion order, and that order is not a promise of the
  source; only membership is.
- RideController.RideService.GetRideHistory: Mongo does not fix the order of rides created at
  the same time. The model sorts the matching rides stably, so rides with equal `createdAt`
  stay in insertion order. The contract pins the result to that sort, which is more than
  the source promises for such ties.
- The `io.use` middleware is not modelled (`ValidateSocketAuth` models the separate
  validator). The same goes for socket.io delivery and room routing, which are recorded as
  the outbox, and for JSON serialisation of payloads.
- Socket.Connection.RideRequest: the stored ride has no `timeout` field. The timer handle is
  recorded in `timers` instead, and `Expire` stands for its callback. Real time, and ride
  ids built from `Date.now()` and `Math.random()`, are parameters. The `new_ride` payload
  carries that Timeout handle. If serialising it throws while at least one candidate is being
  notified, the ack is an error after the ride was stored. The model always sends a pending
  ack. The ack is the method's result, modelled as if the client passed a callback.
- Wiring.NearbyQueryRoundTrip: holds only for a transport that forwards the ack. The client's
  wrapper `emit` (client/src/services/socket.js:57-59) passes on only the event and its data,
  so it drops the callback. So the page gets no answer, and
  the server's `callback(...)` calls undefined and throws a TypeError.
- Wiring.PageRideRequestRoundTrip: holds only for a transport that forwards the ack, for the
  same reason. The ride request is refused before any ride is built, so the Timeout handle
  never reaches serialisation here.
- `Number(text)` reads exponent forms, `0x`/`0o`/`0b` prefixes and `Infinity` as NaN. Binary
  floating-point rounding, Infinity and negative zero are not represented. None of these can
  appear in a coordinate text that the two coordinate-checking pages accept.
- DriverController.CreatedDriverShape: `createDriver` applies `Number` to free text typed into
  the add-driver form (client/src/pages/AddDriver.js:18). For text such as "1e2" or "0x10"
  the source stores 100 or 16, where the model stores NaN. The contract is exact only for
  plain decimal text and non-string values.
- Spreading a string into an object (`{..."ab"}`) contributes no fields here.
- `===` on two objects or arrays compares them by content here (`Js.StrictEquals`), where
  JavaScript compares references. The two uses, the status test of NearbyDrivers.js:82 and
  the `driverId` test of line 83, are exact for string and number values. Two distinct but
  equal object ids would be equal in the model, where JavaScript says they differ.
- Logging (`logger`, `console.log`) is not modelled, and neither is the client socket wrapper,
  which drops ack callbacks (client/src/services/socket.js is not part of this model; see the
  two Wiring lines above).
- Rendering, `localStorage` (given as the `userId` parameter), the `setInterval` ticking
  (reduced to one `Tick` step) and navigation after sign-up are not modelled. Neither are
  the other pages (DriverDashboard, Home, RideHistory, AddDriver) or `userController`, whose
  hashing and tokens are library calls.
