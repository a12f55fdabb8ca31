/**
 * The socket handlers of server/src/socket.js. The server-wide `driverStore` is a class over
 * an insertion-ordered map; every emit is appended to the hub's outbox; each connection keeps
 * its own `activeRides` map and the expiry timers it has armed. The argument the ack
 * callback is called with is the method's result; whether the transport delivers it is not
 * modelled.
 */
module Socket {
  import opened Wrappers
  import opened Js
  import Seqs
  import Validation
  import DriverController

  type SocketId = string

  /** Where an emit goes: `io.emit`, `socket.emit`, or `io.to(room).emit`. */
  datatype Target = Everyone | ToSocket(socket: SocketId) | ToRoom(room: JsValue)

  datatype Emission = Emission(target: Target, event: string, payload: JsValue)

  /**
   * What an ack callback receives: `{status: "success", data}`, `{status: "pending", rideId}`,
   * or `{status: "error", message}` with the message of what was thrown.
   */
  datatype Ack = SuccessAck(data: seq<JsValue>) | PendingAck(rideId: string) | ErrorAck(cause: Thrown)

  /** The object the ack callback is called with. */
  function AckPayload(ack: Ack): JsValue {
    match ack
    case SuccessAck(data) => Obj(map["status" := Str("success"), "data" := Arr(data)])
    case PendingAck(rideId) => Obj(map["status" := Str("pending"), "rideId" := Str(rideId)])
    case ErrorAck(cause) => Obj(map["status" := Str("error"), "message" := Str(Message(cause))])
  }

  /** The `error` event's payload for a refused location update. */
  const LocationUpdateError: JsValue :=
    Obj(map["code" := Str("LOCATION_UPDATE_ERROR"), "message" := Str("Invalid driver data format")])

  /** `driverStore`: a JavaScript `Map` from socket id to the last driver data received. */
  class DriverStore {
    /** The keys in insertion order: the order `values()` visits them in. */
    var order: seq<SocketId>
    var entries: map<SocketId, JsValue>

    ghost predicate Valid()
      reads this
    {
      Seqs.Distinct(order) && forall id :: id in entries <==> id in order
    }

    constructor ()
      ensures Valid() && order == [] && entries == map[]
    {
      order, entries := [], map[];
    }

    /** `get`: the stored data, undefined for an id never stored or since deleted. */
    function Get(id: SocketId): (v: JsValue)
      reads this
      ensures id in entries ==> v == entries[id]
      ensures id !in entries ==> v == Undefined
    {
      if id in entries then entries[id] else Undefined
    }

    /** `set`: replaces or adds the entry; an existing key keeps its place in the order. */
    method Set(id: SocketId, data: JsValue)
      requires Valid()
      modifies this
      ensures Valid()
      ensures entries == old(entries)[id := data]
      ensures order == if id in old(entries) then old(order) else old(order) + [id]
    {
      if id !in entries {
        order := order + [id];
      }
      entries := entries[id := data];
    }

    /** `delete`: removes the entry; deleting an absent id changes nothing. */
    method Delete(id: SocketId)
      requires Valid()
      modifies this
      ensures Valid()
      ensures entries == old(entries) - {id}
      ensures order == Seqs.Without(old(order), id)
      ensures id !in old(entries) ==> entries == old(entries) && order == old(order)
    {
      var order', entries' := Seqs.Without(order, id), entries - {id};
      Seqs.WithoutDistinct(order, id);
      forall y ensures y in entries' <==> y in order' {
        Seqs.WithoutHas(order, id, y);
      }
      if id !in entries {
        Seqs.WithoutAbsent(order, id);
      }
      order, entries := order', entries';
    }

    /** `getAll`: a new array of the stored values, one per socket id, in insertion order. */
    function GetAll(): (r: seq<JsValue>)
      reads this
      requires Valid()
      ensures |r| == |entries| == |order|
      ensures forall i :: 0 <= i < |r| ==> r[i] == entries[order[i]]
      ensures forall v :: v in r <==> v in entries.Values
    {
      Seqs.DistinctCardinality(order);
      assert entries.Keys == set x | x in order;
      var keys, values := order, entries;
      var r := seq(|keys|, i requires 0 <= i < |keys| => values[keys[i]]);
      forall v | v in entries.Values ensures v in r {
        var id :| id in entries && entries[id] == v;
        var i :| 0 <= i < |order| && order[i] == id;
        assert r[i] == v;
      }
      r
    }
  }

  /** The server: the shared store, everything emitted so far, and the distance function. */
  class Hub {
    const store: DriverStore
    var outbox: seq<Emission>
    const distance: DriverController.Distance

    constructor (distance: DriverController.Distance)
      ensures fresh(store) && store.Valid() && store.entries == map[]
      ensures outbox == [] && this.distance == distance
    {
      store := new DriverStore();
      outbox := [];
      this.distance := distance;
    }

    /** `drivers.forEach(d => io.to(d.socketId).emit("new_ride", ride))` */
    method SendNewRide(drivers: seq<JsValue>, ride: JsValue)
      modifies this
      ensures outbox == old(outbox) + FanOut(drivers, ride)
    {
      var i := 0;
      while i < |drivers|
        invariant 0 <= i <= |drivers|
        invariant outbox == old(outbox) + FanOut(drivers[..i], ride)
      {
        assert drivers[..i + 1][..i] == drivers[..i];
        outbox := outbox + [Emission(ToRoom(Field(drivers[i], "socketId")), "new_ride", ride)];
        i := i + 1;
      }
      assert drivers[..i] == drivers;
    }
  }

  /** The candidate lookup of `ride_request`: `rideData.pickupLocation`, then `getNearbyDrivers`. */
  function Candidates(rideData: JsValue, drivers: seq<JsValue>, distance: DriverController.Distance)
    : Result<seq<JsValue>, Thrown>
  {
    match Get(rideData, "pickupLocation")
    case Err(e) => Err(e)
    case Ok(pickup) => DriverController.Nearby(pickup, drivers, distance)
  }

  /** `{...rideData, rideId, status: "pending", createdAt: new Date()}`, without the timer handle. */
  function PendingRide(rideData: JsValue, rideId: string, now: int): JsValue {
    Obj(Spread(rideData)["rideId" := Str(rideId)]["status" := Str("pending")]["createdAt" := Date(now)])
  }

  /** One `new_ride` emit to the room named by each candidate's `socketId`, in candidate order. */
  function FanOut(drivers: seq<JsValue>, ride: JsValue): seq<Emission> {
    if drivers == [] then []
    else
      var last := drivers[|drivers| - 1];
      FanOut(drivers[..|drivers| - 1], ride) + [Emission(ToRoom(Field(last, "socketId")), "new_ride", ride)]
  }

  /** One connection's handlers and state. */
  class Connection {
    const hub: Hub
    const id: SocketId
    var activeRides: map<string, JsValue>
    /** The ride ids whose 30-second timer is armed and has not fired. */
    var timers: multiset<string>

    ghost predicate Valid()
      reads this, hub.store
    {
      hub.store.Valid()
    }

    constructor (hub: Hub, id: SocketId)
      requires hub.store.Valid()
      ensures Valid() && this.hub == hub && this.id == id
      ensures activeRides == map[] && timers == multiset{}
    {
      this.hub := hub;
      this.id := id;
      activeRides := map[];
      timers := multiset{};
    }

    /**
     * `update_location`: valid driver data is stored under this socket's id and the whole
     * store is broadcast; invalid data changes nothing and is answered to this socket alone.
     */
    method UpdateLocation(data: JsValue)
      requires Valid()
      modifies hub, hub.store
      ensures Valid()
      ensures Validation.ValidateDriverData(data) ==>
        && hub.store.entries == old(hub.store.entries)[id := data]
        && hub.store.order == (if id in old(hub.store.entries) then old(hub.store.order) else old(hub.store.order) + [id])
        && hub.store.Get(id) == data
        && hub.outbox == old(hub.outbox) + [Emission(Everyone, "drivers_update", Arr(hub.store.GetAll()))]
      ensures !Validation.ValidateDriverData(data) ==>
        && hub.store.entries == old(hub.store.entries) && hub.store.order == old(hub.store.order)
        && hub.outbox == old(hub.outbox) + [Emission(ToSocket(id), "error", LocationUpdateError)]
    {
      if !Validation.ValidateDriverData(data) {
        hub.outbox := hub.outbox + [Emission(ToSocket(id), "error", LocationUpdateError)];
        return;
      }
      hub.store.Set(id, data);
      hub.outbox := hub.outbox + [Emission(Everyone, "drivers_update", Arr(hub.store.GetAll()))];
    }

    /**
     * `get_nearby_drivers`: an invalid location is refused with its own message; a valid one
     * reaches the lookup, which names the undeclared `drivers` and so throws a ReferenceError.
     * Neither path changes any state or emits anything.
     */
    method GetNearbyDrivers(clientLocation: JsValue) returns (ack: Ack)
      ensures !Validation.ValidateLocation(clientLocation) ==> ack == ErrorAck(Error("Invalid client coordinates"))
      ensures Validation.ValidateLocation(clientLocation) ==> ack == ErrorAck(RefErr("drivers"))
      ensures !ack.SuccessAck?
    {
      if !Validation.ValidateLocation(clientLocation) {
        return ErrorAck(Error("Invalid client coordinates"));
      }
      ack := ErrorAck(RefErr("drivers"));
    }

    /**
     * `ride_request`: the candidates are looked up first; if that throws, the ack is an error
     * and nothing is stored, armed or emitted. Otherwise the ride is stored as pending under
     * `rideId`, its timer is armed, it is sent to each candidate and the ack is pending,
     * however many candidates there were.
     */
    method RideRequest(rideData: JsValue, rideId: string, now: int) returns (ack: Ack)
      requires Valid()
      modifies this, hub
      ensures Valid()
      ensures var found := Candidates(rideData, old(hub.store.GetAll()), hub.distance);
        if found.Err? then
          ack == ErrorAck(found.error) && activeRides == old(activeRides)
          && timers == old(timers) && hub.outbox == old(hub.outbox)
        else
          var ride := PendingRide(rideData, rideId, now);
          && activeRides == old(activeRides)[rideId := ride]
          && timers == old(timers) + multiset{rideId}
          && hub.outbox == old(hub.outbox) + FanOut(found.value, ride)
          && ack == PendingAck(rideId)
    {
      var pickup := Get(rideData, "pickupLocation");
      if pickup.Err? {
        return ErrorAck(pickup.error);
      }
      var found := DriverController.GetNearbyDrivers(pickup.value, hub.store.GetAll(), hub.distance);
      if found.Err? {
        return ErrorAck(found.error);
      }
      var nearbyDrivers := found.value;
      var ride := PendingRide(rideData, rideId, now);
      activeRides := activeRides[rideId := ride];
      timers := timers + multiset{rideId};
      hub.SendNewRide(nearbyDrivers, ride);
      ack := PendingAck(rideId);
    }

    /**
     * The timer callback of one armed ride: that id leaves `activeRides` and this socket is
     * told `ride_timeout` with it.
     */
    method Expire(rideId: string)
      requires Valid() && rideId in timers
      modifies this, hub
      ensures Valid()
      ensures activeRides == old(activeRides) - {rideId}
      ensures timers == old(timers) - multiset{rideId}
      ensures hub.outbox == old(hub.outbox) + [Emission(ToSocket(id), "ride_timeout", Obj(map["rideId" := Str(rideId)]))]
    {
      timers := timers - multiset{rideId};
      activeRides := activeRides - {rideId};
      hub.outbox := hub.outbox + [Emission(ToSocket(id), "ride_timeout", Obj(map["rideId" := Str(rideId)]))];
    }

    /**
     * `disconnect`: this socket's entry is removed and the store broadcast; if it was already
     * gone, the store is as it was and only the broadcast happens.
     */
    method Disconnect()
      requires Valid()
      modifies hub, hub.store
      ensures Valid()
      ensures hub.store.entries == old(hub.store.entries) - {id}
      ensures hub.store.order == Seqs.Without(old(hub.store.order), id)
      ensures hub.store.Get(id) == Undefined
      ensures id !in old(hub.store.entries) ==>
        hub.store.entries == old(hub.store.entries) && hub.store.order == old(hub.store.order)
      ensures hub.outbox == old(hub.outbox) + [Emission(Everyone, "drivers_update", Arr(hub.store.GetAll()))]
    {
      hub.store.Delete(id);
      hub.outbox := hub.outbox + [Emission(Everyone, "drivers_update", Arr(hub.store.GetAll()))];
    }
  }

  /** The lookup succeeds only for an object: anything else has no `pickupLocation`, or throws. */
  lemma CandidatesNeedObject(rideData: JsValue, drivers: seq<JsValue>, distance: DriverController.Distance)
    requires Candidates(rideData, drivers, distance).Ok?
    ensures rideData.Obj? && "pickupLocation" in rideData.fields
    ensures !Nullish(rideData.fields["pickupLocation"])
  {
  }

  /**
   * The stored ride overrides `rideId`, `status` and `createdAt` from the request and keeps
   * every other field of it.
   */
  lemma PendingRideFields(rideData: JsValue, rideId: string, now: int, key: string)
    ensures Field(PendingRide(rideData, rideId, now), "status") == Str("pending")
    ensures Field(PendingRide(rideData, rideId, now), "rideId") == Str(rideId)
    ensures Field(PendingRide(rideData, rideId, now), "createdAt") == Date(now)
    ensures rideData.Obj? && key != "rideId" && key != "status" && key != "createdAt" ==>
      Field(PendingRide(rideData, rideId, now), key) == Field(rideData, key)
  {
  }

  /** The fan-out sends the ride once per candidate, each to that candidate's `socketId` room. */
  lemma {:induction false} FanOutEach(drivers: seq<JsValue>, ride: JsValue)
    ensures |FanOut(drivers, ride)| == |drivers|
    ensures forall i :: 0 <= i < |drivers| ==>
      FanOut(drivers, ride)[i] == Emission(ToRoom(Field(drivers[i], "socketId")), "new_ride", ride)
  {
    if drivers != [] {
      FanOutEach(drivers[..|drivers| - 1], ride);
    }
  }

  /** Drivers whose data has no `socketId` field are all addressed to the room `undefined`. */
  lemma FanOutWithoutSocketIds(drivers: seq<JsValue>, ride: JsValue)
    requires forall i :: 0 <= i < |drivers| ==> drivers[i].Obj? && "socketId" !in drivers[i].fields
    ensures forall e :: e in FanOut(drivers, ride) ==> e.target == ToRoom(Undefined)
  {
    FanOutEach(drivers, ride);
  }
}
