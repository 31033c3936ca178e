/**
 * The second ride workflow, in the service layer: create, accept and
 * complete. It has its own guards, and it writes the statuses as the
 * upper-case strings "REQUESTED", "ACCEPTED" and "COMPLETED", so its
 * documents carry a plain string as their status. Errors are the HTTP
 * errors it throws (404, 400, 403); the caller's id is a parameter.
 */
module RideService {
  import opened Outcomes
  import RideModel

  const REQUESTED: string := "REQUESTED"
  const ACCEPTED: string := "ACCEPTED"
  const COMPLETED: string := "COMPLETED"

  /** The request body the service copies fields from. */
  datatype RideInput = RideInput(pickup: Option<string>, dropoff: Option<string>, notes: Option<string>)

  /** A ride document as the service reads and writes it. */
  datatype ServiceRide = ServiceRide(
    rider: UserId,
    driver: Option<UserId>,
    pickup: Option<string>,
    dropoff: Option<string>,
    notes: Option<string>,
    status: string,
    requestedAt: int,
    acceptedAt: Option<int>,
    completedAt: Option<int>)

  /** The fields accept and complete never write. */
  predicate SameTrip(a: ServiceRide, b: ServiceRide) {
    && a.rider == b.rider && a.pickup == b.pickup && a.dropoff == b.dropoff
    && a.notes == b.notes && a.requestedAt == b.requestedAt
  }

  /** createRide: the document it creates for `riderId` at time `now`. */
  function NewRide(riderId: UserId, data: RideInput, now: int): (r: ServiceRide)
    ensures r.rider == riderId && r.status == REQUESTED && r.requestedAt == now
    ensures r.pickup == data.pickup && r.dropoff == data.dropoff && r.notes == data.notes
    ensures r.driver.None? && r.acceptedAt.None? && r.completedAt.None?
  {
    ServiceRide(riderId, None, data.pickup, data.dropoff, data.notes, REQUESTED, now, None, None)
  }

  /**
   * acceptRide: 404 for an unknown ride, 400 unless it is still
   * "REQUESTED", otherwise the ride accepted by `driverId`.
   */
  function Accept(rides: seq<ServiceRide>, rideId: RideId, driverId: UserId, now: int): (out: Outcome<ServiceRide>)
    ensures out == NotFound <==> rideId >= |rides|
    ensures out == BadRequest <==> rideId < |rides| && rides[rideId].status != REQUESTED
    ensures out.Ok? <==> rideId < |rides| && rides[rideId].status == REQUESTED
    ensures out.Ok? ==>
      && out.value.driver == Some(driverId) && out.value.status == ACCEPTED
      && out.value.acceptedAt == Some(now) && out.value.completedAt == rides[rideId].completedAt
      && SameTrip(rides[rideId], out.value)
  {
    if rideId >= |rides| then NotFound
    else
      var ride := rides[rideId];
      if ride.status != REQUESTED then BadRequest
      else Ok(ride.(driver := Some(driverId), status := ACCEPTED, acceptedAt := Some(now)))
  }

  /**
   * completeRide: 404 for an unknown ride, 403 unless `driverId` is the
   * ride's driver (a ride without a driver is nobody's), otherwise the
   * completed ride, whatever its status was.
   */
  function Complete(rides: seq<ServiceRide>, rideId: RideId, driverId: UserId, now: int): (out: Outcome<ServiceRide>)
    ensures out == NotFound <==> rideId >= |rides|
    ensures out == Forbidden <==> rideId < |rides| && rides[rideId].driver != Some(driverId)
    ensures out.Ok? <==> rideId < |rides| && rides[rideId].driver == Some(driverId)
    ensures out.Ok? ==>
      && out.value.status == COMPLETED && out.value.completedAt == Some(now)
      && out.value.driver == rides[rideId].driver && out.value.acceptedAt == rides[rideId].acceptedAt
      && SameTrip(rides[rideId], out.value)
  {
    if rideId >= |rides| then NotFound
    else
      var ride := rides[rideId];
      if ride.driver != Some(driverId) then Forbidden
      else Ok(ride.(status := COMPLETED, completedAt := Some(now)))
  }

  // ---------------------------------------------------------------------
  // The service's statuses against the schema
  // ---------------------------------------------------------------------

  /**
   * None of the strings the service writes is a value of the schema's
   * status enum, so the schema's validation admits none of them.
   */
  lemma StatusesOutsideSchemaEnum()
    ensures forall n | n in [REQUESTED, ACCEPTED, COMPLETED] ::
      n !in RideModel.StatusNames && RideModel.ParseStatus(n).None?
  {
  }

  /** Every document the service creates fails the schema's enum check. */
  lemma NewRideFailsSchemaEnum(riderId: UserId, data: RideInput, now: int)
    ensures RideModel.ParseStatus(NewRide(riderId, data, now).status).None?
  {
    StatusesOutsideSchemaEnum();
  }

  /**
   * A ride whose status is a schema enum value (every ride the
   * controller writes) can never be accepted by the service.
   */
  lemma AcceptRejectsSchemaStatuses(rides: seq<ServiceRide>, rideId: RideId, driverId: UserId, now: int)
    requires rideId < |rides| && rides[rideId].status in RideModel.StatusNames
    ensures Accept(rides, rideId, driverId, now) == BadRequest
  {
    StatusesOutsideSchemaEnum();
  }

  // ---------------------------------------------------------------------
  // Sequences of service calls
  // ---------------------------------------------------------------------

  /** One service call with its arguments and time. */
  datatype Action =
    | CreateCall(riderId: UserId, data: RideInput, now: int)
    | AcceptCall(rideId: RideId, driverId: UserId, now: int)
    | CompleteCall(rideId: RideId, driverId: UserId, now: int)

  /** The collection after one service call. */
  function Apply(rides: seq<ServiceRide>, a: Action): seq<ServiceRide> {
    match a
    case CreateCall(u, d, t) => rides + [NewRide(u, d, t)]
    case AcceptCall(i, d, t) => Commit(rides, Some(i), Accept(rides, i, d, t))
    case CompleteCall(i, d, t) => Commit(rides, Some(i), Complete(rides, i, d, t))
  }

  /** The collection after a sequence of service calls on an empty one. */
  function Run(actions: seq<Action>): seq<ServiceRide> {
    if |actions| == 0 then []
    else Apply(Run(actions[..|actions| - 1]), actions[|actions| - 1])
  }

  /**
   * The shape every service-written ride has: one of the three service
   * statuses; a driver and an acceptance time exactly when it is past
   * "REQUESTED"; a completion time exactly when it is "COMPLETED".
   */
  ghost predicate Consistent(r: ServiceRide) {
    && (r.status == REQUESTED || r.status == ACCEPTED || r.status == COMPLETED)
    && (r.driver.Some? <==> r.status != REQUESTED)
    && (r.acceptedAt.Some? <==> r.status != REQUESTED)
    && (r.completedAt.Some? <==> r.status == COMPLETED)
  }

  ghost predicate AllConsistent(rides: seq<ServiceRide>) {
    forall i | 0 <= i < |rides| :: Consistent(rides[i])
  }

  /** Each service call keeps every ride consistent. */
  lemma ApplyKeepsConsistent(rides: seq<ServiceRide>, a: Action)
    requires AllConsistent(rides)
    ensures AllConsistent(Apply(rides, a))
  {
    var after := Apply(rides, a);
    forall i | 0 <= i < |after| ensures Consistent(after[i]) {
      if i < |rides| { assert Consistent(rides[i]); }
    }
  }

  /** Every collection built by the service is consistent. */
  lemma {:induction false} RunConsistent(actions: seq<Action>)
    ensures AllConsistent(Run(actions))
  {
    if |actions| > 0 {
      RunConsistent(actions[..|actions| - 1]);
      ApplyKeepsConsistent(Run(actions[..|actions| - 1]), actions[|actions| - 1]);
    }
  }

  /**
   * Once a consistent ride has a driver, no service call replaces it (nor
   * removes it): an accepted ride is never accepted again.
   */
  lemma ApplyKeepsDriver(rides: seq<ServiceRide>, a: Action, i: nat)
    requires i < |rides| && rides[i].driver.Some? && Consistent(rides[i])
    ensures i < |Apply(rides, a)| && Apply(rides, a)[i].driver == rides[i].driver
  {
  }

  /**
   * On every collection the service builds, a ride's driver, once set,
   * stays the same through any further call.
   */
  lemma DriverNeverReassigned(actions: seq<Action>, a: Action, i: nat)
    requires i < |Run(actions)| && Run(actions)[i].driver.Some?
    ensures Run(actions + [a])[i].driver == Run(actions)[i].driver
  {
    RunConsistent(actions);
    ApplyKeepsDriver(Run(actions), a, i);
    assert (actions + [a])[..|actions|] == actions;
  }

  /**
   * Accepting twice: the second call reports 400 and the first driver
   * stays.
   */
  lemma {:induction false} SecondAcceptFails(rides: seq<ServiceRide>, rideId: RideId,
                                             d1: UserId, d2: UserId, t1: int, t2: int)
    requires Accept(rides, rideId, d1, t1).Ok?
    ensures var once := Commit(rides, Some(rideId), Accept(rides, rideId, d1, t1));
      Accept(once, rideId, d2, t2) == BadRequest && once[rideId].driver == Some(d1)
  {
    var once := Commit(rides, Some(rideId), Accept(rides, rideId, d1, t1));
    assert once[rideId] == Accept(rides, rideId, d1, t1).value;
  }

  /**
   * Complete has no status guard: the driver who just accepted a ride
   * completes it directly from "ACCEPTED", with no start step between.
   */
  lemma {:induction false} CompleteRightAfterAccept(rides: seq<ServiceRide>, rideId: RideId,
                                                    driverId: UserId, t1: int, t2: int)
    requires Accept(rides, rideId, driverId, t1).Ok?
    ensures var once := Commit(rides, Some(rideId), Accept(rides, rideId, driverId, t1));
      once[rideId].status == ACCEPTED
      && Complete(once, rideId, driverId, t2).Ok?
      && Complete(once, rideId, driverId, t2).value.status == COMPLETED
  {
    var once := Commit(rides, Some(rideId), Accept(rides, rideId, driverId, t1));
    assert once[rideId] == Accept(rides, rideId, driverId, t1).value;
  }

  /** A freshly created ride can be accepted by any driver. */
  lemma NewRideAcceptable(rides: seq<ServiceRide>, riderId: UserId, data: RideInput,
                          driverId: UserId, t1: int, t2: int)
    ensures Accept(rides + [NewRide(riderId, data, t1)], |rides|, driverId, t2).Ok?
  {
  }

  // ---------------------------------------------------------------------
  // The collection, updated in place
  // ---------------------------------------------------------------------

  /** The service's ride collection and the calls made on it. */
  class ServiceStore {
    var rides: seq<ServiceRide>
    ghost var log: seq<Action>

    ghost predicate Valid()
      reads this
    {
      rides == Run(log)
    }

    constructor ()
      ensures Valid() && rides == [] && log == []
    {
      rides := [];
      log := [];
    }

    /** Appends the call to the log; the rides are those after it. */
    ghost method Record(a: Action)
      requires rides == Apply(Run(log), a)
      modifies this`log
      ensures log == old(log) + [a] && Valid()
    {
      log := log + [a];
      assert log[..|log| - 1] == old(log);
    }

    /** createRide: inserts the new ride under a fresh id. */
    method CreateRide(riderId: UserId, data: RideInput, now: int) returns (ride: ServiceRide, id: RideId)
      requires Valid()
      modifies this
      ensures Valid() && log == old(log) + [CreateCall(riderId, data, now)]
      ensures ride == NewRide(riderId, data, now)
      ensures id == |old(rides)| && rides == old(rides) + [ride]
    {
      ride := ServiceRide(riderId, None, data.pickup, data.dropoff, data.notes, REQUESTED, now, None, None);
      id := |rides|;
      rides := rides + [ride];
      Record(CreateCall(riderId, data, now));
    }

    /** acceptRide: a "REQUESTED" ride gets `driverId` as its driver. */
    method AcceptRide(rideId: RideId, driverId: UserId, now: int) returns (out: Outcome<ServiceRide>)
      requires Valid()
      modifies this
      ensures Valid() && log == old(log) + [AcceptCall(rideId, driverId, now)]
      ensures out == Accept(old(rides), rideId, driverId, now)
      ensures rides == Commit(old(rides), Some(rideId), out)
    {
      if rideId >= |rides| {
        out := NotFound;
      } else if rides[rideId].status != REQUESTED {
        out := BadRequest;
      } else {
        var ride := rides[rideId];
        ride := ride.(driver := Some(driverId));
        ride := ride.(status := ACCEPTED);
        ride := ride.(acceptedAt := Some(now));
        rides := rides[rideId := ride];
        out := Ok(ride);
      }
      Record(AcceptCall(rideId, driverId, now));
    }

    /** completeRide: the ride's own driver marks it "COMPLETED". */
    method CompleteRide(rideId: RideId, driverId: UserId, now: int) returns (out: Outcome<ServiceRide>)
      requires Valid()
      modifies this
      ensures Valid() && log == old(log) + [CompleteCall(rideId, driverId, now)]
      ensures out == Complete(old(rides), rideId, driverId, now)
      ensures rides == Commit(old(rides), Some(rideId), out)
    {
      if rideId >= |rides| {
        out := NotFound;
      } else if rides[rideId].driver != Some(driverId) {
        out := Forbidden;
      } else {
        var ride := rides[rideId];
        ride := ride.(status := COMPLETED);
        ride := ride.(completedAt := Some(now));
        rides := rides[rideId := ride];
        out := Ok(ride);
      }
      Record(CompleteCall(rideId, driverId, now));
    }
  }

  /** Every ride of a store built by the service's methods is consistent. */
  lemma StoreConsistent(store: ServiceStore)
    requires store.Valid()
    ensures AllConsistent(store.rides)
  {
    RunConsistent(store.log);
  }
}
