/**
 * The ride handlers of server/src/controllers/rideController.js over an in-memory rides
 * collection (documents by id, in insertion order) and the drivers' `available` flags.
 */
module RideController {
  import opened Wrappers
  import opened RideModel
  import Seqs

  /** The HTTP status, message and ride document a handler answers with. */
  datatype Reply = Reply(code: int, message: string, ride: Option<Ride>)

  /** The filters the two query handlers pass to `Ride.find`. */
  datatype Query =
    | ActiveQuery                 // status pending or accepted
    | PassengerCompleted(id: Id)  // this passenger's completed rides
    | DriverCompleted(id: Id)     // this driver's completed rides
    | AllRides

  predicate Matches(q: Query, r: Ride) {
    match q
    case ActiveQuery => r.status == Pending || r.status == Accepted
    case PassengerCompleted(id) => r.passengerId == id && r.status == Completed
    case DriverCompleted(id) => r.driverId == Some(id) && r.status == Completed
    case AllRides => true
  }

  /** The filter `getRideHistory` chooses from the role. */
  function HistoryQuery(role: Option<string>, userId: Id): Query {
    if role == Some("passenger") then PassengerCompleted(userId)
    else if role == Some("driver") then DriverCompleted(userId)
    else AllRides
  }

  /** The documents that match `q`, in the collection's natural (insertion) order. */
  function Find(order: seq<Id>, rides: map<Id, Ride>, q: Query): seq<Ride>
    requires forall i :: 0 <= i < |order| ==> order[i] in rides
  {
    if order == [] then []
    else
      var last := rides[order[|order| - 1]];
      Find(order[..|order| - 1], rides, q) + (if Matches(q, last) then [last] else [])
  }

  /** A ride is found exactly when it is stored under one of the ids and matches. */
  lemma {:induction false} FindMembership(order: seq<Id>, rides: map<Id, Ride>, q: Query, x: Ride)
    requires forall i :: 0 <= i < |order| ==> order[i] in rides
    ensures x in Find(order, rides, q) <==> Matches(q, x) && exists i :: 0 <= i < |order| && rides[order[i]] == x
  {
    if order != [] {
      var front := order[..|order| - 1];
      FindMembership(front, rides, q, x);
      if exists i :: 0 <= i < |front| && rides[front[i]] == x {
        var i :| 0 <= i < |front| && rides[front[i]] == x;
        assert rides[order[i]] == x;
      }
      if exists i :: 0 <= i < |order| && rides[order[i]] == x {
        var i :| 0 <= i < |order| && rides[order[i]] == x;
        if i < |front| {
          assert rides[front[i]] == x;
        }
      }
    }
  }

  /** Every ride in `s` is at least as recent as every ride after it. */
  predicate NewestFirst(s: seq<Ride>) {
    forall i, j :: 0 <= i < j < |s| ==> s[i].createdAt >= s[j].createdAt
  }

  /** Inserts `x` after every ride at least as recent, so equal times keep their order. */
  function Insert(x: Ride, s: seq<Ride>): seq<Ride> {
    if s == [] then [x]
    else if s[0].createdAt >= x.createdAt then [s[0]] + Insert(x, s[1..])
    else [x] + s
  }

  /** `.sort({ createdAt: -1 })`, as a stable insertion sort. */
  function SortNewestFirst(s: seq<Ride>): seq<Ride> {
    if s == [] then [] else Insert(s[|s| - 1], SortNewestFirst(s[..|s| - 1]))
  }

  lemma {:induction false} InsertIsPermutation(x: Ride, s: seq<Ride>)
    ensures multiset(Insert(x, s)) == multiset(s) + multiset{x}
  {
    if s != [] && s[0].createdAt >= x.createdAt {
      InsertIsPermutation(x, s[1..]);
      assert s == [s[0]] + s[1..];
    }
  }

  lemma {:induction false} InsertKeepsOrder(x: Ride, s: seq<Ride>)
    requires NewestFirst(s)
    ensures NewestFirst(Insert(x, s))
  {
    if s != [] && s[0].createdAt >= x.createdAt {
      InsertKeepsOrder(x, s[1..]);
      InsertIsPermutation(x, s[1..]);
      var rest := Insert(x, s[1..]);
      forall j | 0 <= j < |rest| ensures s[0].createdAt >= rest[j].createdAt {
        assert rest[j] in multiset(rest);
        if rest[j] != x {
          assert rest[j] in multiset(s[1..]);
          var k :| 0 <= k < |s[1..]| && s[1..][k] == rest[j];
          assert s[k + 1] == rest[j];
        }
      }
      assert Insert(x, s) == [s[0]] + rest;
    }
  }

  /** The sorted rides are the same rides, newest first. */
  lemma {:induction false} SortIsPermutationNewestFirst(s: seq<Ride>)
    ensures NewestFirst(SortNewestFirst(s))
    ensures multiset(SortNewestFirst(s)) == multiset(s)
  {
    if s != [] {
      SortIsPermutationNewestFirst(s[..|s| - 1]);
      InsertKeepsOrder(s[|s| - 1], SortNewestFirst(s[..|s| - 1]));
      InsertIsPermutation(s[|s| - 1], SortNewestFirst(s[..|s| - 1]));
      assert s[..|s| - 1] + [s[|s| - 1]] == s;
    }
  }

  class RideService {
    /** Ride ids in insertion order: the order an unsorted `find` returns them in. */
    var order: seq<Id>
    var rides: map<Id, Ride>
    /** The `available` flag of each driver document. */
    var available: map<Id, bool>

    ghost predicate Valid()
      reads this
    {
      && Seqs.Distinct(order)
      && (forall id :: id in rides <==> id in order)
      && (forall id :: id in rides ==> rides[id].id == id)
    }

    constructor (drivers: map<Id, bool>)
      ensures Valid() && order == [] && rides == map[] && available == drivers
    {
      order, rides, available := [], map[], drivers;
    }

    /**
     * `requestRide`: saves a pending ride at `location` for `passengerId` under the fresh id
     * the store assigns; a document the schema or the geo index refuses is answered 500 and
     * nothing is saved.
     */
    method RequestRide(passengerId: Option<Id>, location: Option<seq<real>>, newId: Id, now: int)
      returns (reply: Reply)
      requires Valid() && newId !in rides
      modifies this
      ensures Valid() && available == old(available)
      ensures var built := Save(newId, RideFields(passengerId, None, Some("Point"), location, Some("pending"), Some(now)), now);
        if built.Ok? then
          rides == old(rides)[newId := built.value] && order == old(order) + [newId]
          && reply == Reply(201, "Ride requested", Some(built.value))
        else
          rides == old(rides) && order == old(order) && reply == Reply(500, "Error requesting ride", None)
      ensures reply.code == 201 <==> passengerId.Some? && location.Some? && GeoIndexAccepts(location.value)
      ensures reply.code == 201 ==>
        rides[newId].status == Pending && rides[newId].coordinates == location.value
        && rides[newId].passengerId == passengerId.value && rides[newId].createdAt == now
        && rides[newId].driverId.None?
    {
      var built := Save(newId, RideFields(passengerId, None, Some("Point"), location, Some("pending"), Some(now)), now);
      if built.Ok? {
        rides := rides[newId := built.value];
        order := order + [newId];
        reply := Reply(201, "Ride requested", Some(built.value));
      } else {
        reply := Reply(500, "Error requesting ride", None);
      }
    }

    /**
     * `acceptRide`: an unknown ride is 404, a ride that is not pending is 400, and both leave
     * everything as it was; a pending ride becomes accepted by `driverId`, and that driver's
     * document, when there is one, is marked unavailable.
     */
    method AcceptRide(rideId: Id, driverId: Option<Id>) returns (reply: Reply)
      requires Valid()
      modifies this
      ensures Valid() && order == old(order)
      ensures rideId !in old(rides) ==>
        reply == Reply(404, "Ride not found", None) && rides == old(rides) && available == old(available)
      ensures rideId in old(rides) && old(rides[rideId].status) != Pending ==>
        reply == Reply(400, "Ride already accepted or unavailable", None)
        && rides == old(rides) && available == old(available)
      ensures rideId in old(rides) && old(rides[rideId].status) == Pending ==>
        && rides == old(rides)[rideId := old(rides[rideId]).(driverId := driverId, status := Accepted)]
        && available == (if driverId.Some? && driverId.value in old(available)
                         then old(available)[driverId.value := false] else old(available))
        && reply == Reply(200, "Ride accepted", Some(rides[rideId]))
    {
      if rideId !in rides {
        return Reply(404, "Ride not found", None);
      }
      var ride := rides[rideId];
      if ride.status != Pending {
        return Reply(400, "Ride already accepted or unavailable", None);
      }
      ride := ride.(driverId := driverId, status := Accepted);
      rides := rides[rideId := ride];
      if driverId.Some? && driverId.value in available {
        available := available[driverId.value := false];
      }
      reply := Reply(200, "Ride accepted", Some(ride));
    }

    /** `cancelRide`: any existing ride becomes cancelled, whatever its status was. */
    method CancelRide(rideId: Id) returns (reply: Reply)
      requires Valid()
      modifies this
      ensures Valid() && order == old(order) && available == old(available)
      ensures rideId !in old(rides) ==> reply == Reply(404, "Ride not found", None) && rides == old(rides)
      ensures rideId in old(rides) ==>
        rides == old(rides)[rideId := old(rides[rideId]).(status := Cancelled)]
        && reply == Reply(200, "Ride cancelled", Some(rides[rideId]))
    {
      if rideId !in rides {
        return Reply(404, "Ride not found", None);
      }
      var ride := rides[rideId].(status := Cancelled);
      rides := rides[rideId := ride];
      reply := Reply(200, "Ride cancelled", Some(ride));
    }

    /**
     * `completeRide`: any existing ride becomes completed; the driver recorded on it, if any,
     * is marked available again.
     */
    method CompleteRide(rideId: Id) returns (reply: Reply)
      requires Valid()
      modifies this
      ensures Valid() && order == old(order)
      ensures rideId !in old(rides) ==>
        reply == Reply(404, "Ride not found", None) && rides == old(rides) && available == old(available)
      ensures rideId in old(rides) ==>
        && rides == old(rides)[rideId := old(rides[rideId]).(status := Completed)]
        && var d := old(rides[rideId].driverId);
        available == (if d.Some? && d.value in old(available) then old(available)[d.value := true] else old(available))
        && reply == Reply(200, "Ride completed", Some(rides[rideId]))
    {
      if rideId !in rides {
        return Reply(404, "Ride not found", None);
      }
      var ride := rides[rideId].(status := Completed);
      rides := rides[rideId := ride];
      if ride.driverId.Some? && ride.driverId.value in available {
        available := available[ride.driverId.value := true];
      }
      reply := Reply(200, "Ride completed", Some(ride));
    }

    /** `getActiveRides`: exactly the stored rides whose status is pending or accepted. */
    method GetActiveRides() returns (r: seq<Ride>)
      requires Valid()
      ensures r == Find(order, rides, ActiveQuery)
      ensures forall x :: x in r <==> x in rides.Values && (x.status == Pending || x.status == Accepted)
    {
      r := Find(order, rides, ActiveQuery);
      forall x ensures x in r <==> x in rides.Values && (x.status == Pending || x.status == Accepted) {
        FindMembership(order, rides, ActiveQuery, x);
        StoredIsListed(x);
      }
    }

    /**
     * `getRideHistory`: for a passenger or a driver their completed rides, for any other role
     * every ride; newest first.
     */
    method GetRideHistory(userId: Id, role: Option<string>) returns (r: seq<Ride>)
      requires Valid()
      ensures r == SortNewestFirst(Find(order, rides, HistoryQuery(role, userId)))
      ensures NewestFirst(r)
      ensures forall x :: x in r <==> x in rides.Values && Matches(HistoryQuery(role, userId), x)
      ensures role == Some("passenger") ==>
        forall x :: x in r <==> x in rides.Values && x.passengerId == userId && x.status == Completed
      ensures role == Some("driver") ==>
        forall x :: x in r <==> x in rides.Values && x.driverId == Some(userId) && x.status == Completed
      ensures role != Some("passenger") && role != Some("driver") ==> multiset(r) == multiset(Find(order, rides, AllRides))
    {
      var found := Find(order, rides, HistoryQuery(role, userId));
      r := SortNewestFirst(found);
      SortIsPermutationNewestFirst(found);
      forall x ensures x in r <==> x in rides.Values && Matches(HistoryQuery(role, userId), x) {
        assert x in r <==> x in multiset(found);
        FindMembership(order, rides, HistoryQuery(role, userId), x);
        StoredIsListed(x);
      }
    }

    /** A stored ride is one listed in `order`. */
    lemma StoredIsListed(x: Ride)
      requires Valid()
      ensures x in rides.Values <==> exists i :: 0 <= i < |order| && rides[order[i]] == x
    {
      if x in rides.Values {
        var id :| id in rides && rides[id] == x;
        var i :| 0 <= i < |order| && order[i] == id;
        assert rides[order[i]] == x;
      }
    }
  }

  /**
   * Accepting is first-come: after a successful accept the ride is no longer pending, so a
   * second accept of the same ride, by any driver, is refused with 400 and changes nothing.
   */
  method SecondAcceptFails(service: RideService, rideId: Id, first: Option<Id>, second: Option<Id>)
    returns (r1: Reply, r2: Reply)
    requires service.Valid()
    modifies service
    ensures r2.code != 200
    ensures r1.code == 200 ==> r2 == Reply(400, "Ride already accepted or unavailable", None)
    ensures r1.code == 200 ==> rideId in service.rides && service.rides[rideId].driverId == first
  {
    r1 := service.AcceptRide(rideId, first);
    r2 := service.AcceptRide(rideId, second);
  }
}
