/**
 * The ride handlers (request, accept, complete, cancel, history) over an
 * in-memory ride collection. The acting user's id and role are explicit
 * parameters instead of the authenticated request's `user`, and the
 * current time is a parameter instead of the clock.
 *
 * Each handler's decision is a function of the collection before the call
 * (`Request`, `Accept`, `Complete`, `Cancel`, `History`); the class
 * `RideStore` holds the collection and applies those decisions in place,
 * as the handlers do with `findById`, field assignment and `save`.
 */
module RideController {
  import opened Outcomes
  import opened RideModel

  /** The fields no lifecycle handler writes: they describe the trip itself. */
  predicate SameTrip(a: Ride, b: Ride) {
    && a.rider == b.rider && a.pickup == b.pickup && a.dropoff == b.dropoff
    && a.notes == b.notes && a.requestedAt == b.requestedAt
    && a.createdAt == b.createdAt && a.completedAt == b.completedAt
  }

  /** A status from which the cancel handler refuses to cancel. */
  predicate Terminal(s: Status) {
    s == Completed || s == Cancelled
  }

  /** Whether `user` is the ride's rider or its driver. */
  predicate IsParticipant(r: Ride, user: UserId) {
    r.rider == user || r.driver == Some(user)
  }

  // ---------------------------------------------------------------------
  // requestRide
  // ---------------------------------------------------------------------

  /**
   * The decision of the request handler: 401 without a user, 400 without
   * both locations (the user is checked first), otherwise the new ride it
   * creates for the caller.
   */
  function Request(user: Option<UserId>, pickup: Option<string>, dropoff: Option<string>,
                   now: int): (out: Outcome<Ride>)
    ensures out == Unauthorized <==> !Truthy(user)
    ensures out == BadRequest <==> Truthy(user) && !(Truthy(pickup) && Truthy(dropoff))
    ensures out.Ok? <==> Truthy(user) && Truthy(pickup) && Truthy(dropoff)
    ensures out.Ok? ==>
      && out.value.rider == user.value
      && out.value.pickup == pickup.value && out.value.dropoff == dropoff.value
      && out.value.status == Requested && out.value.driver.None?
      && out.value.notes.None? && out.value.completedAt.None?
      && out.value.requestedAt == now && out.value.createdAt == now && out.value.updatedAt == now
  {
    if !Truthy(user) then Unauthorized
    else if !Truthy(pickup) || !Truthy(dropoff) then BadRequest
    else Ok(Create(user.value, pickup.value, dropoff.value, None, None, None, now).value)
  }

  // ---------------------------------------------------------------------
  // acceptRide
  // ---------------------------------------------------------------------

  /**
   * Whether accepting changes the stored document. Re-accepting a ride the
   * caller already holds assigns equal values, so `save` sees no
   * modification and the `timestamps` option leaves `updatedAt` alone.
   */
  predicate AcceptModifies(r: Ride, user: UserId) {
    r.status != Accepted || r.driver != Some(user)
  }

  /**
   * The decision of the accept handler: 401 without a user, 400 without a
   * ride id, 404 for an unknown ride, and otherwise the ride accepted by
   * the caller, whatever its status and whoever its driver was.
   * `updatedAt` is refreshed when the document was modified.
   */
  function Accept(rides: seq<Ride>, user: Option<UserId>, rideId: Option<RideId>,
                  now: int): (out: Outcome<Ride>)
    ensures out == Unauthorized <==> !Truthy(user)
    ensures out == BadRequest <==> Truthy(user) && rideId.None?
    ensures out == NotFound <==> Truthy(user) && rideId.Some? && Lookup(rides, rideId).None?
    ensures out.Ok? <==> Truthy(user) && Lookup(rides, rideId).Some?
    ensures out.Ok? ==>
      && out.value.status == Accepted && out.value.driver == Some(user.value)
      && SameTrip(Lookup(rides, rideId).value, out.value)
      && (AcceptModifies(Lookup(rides, rideId).value, user.value) ==> out.value.updatedAt == now)
      && (!AcceptModifies(Lookup(rides, rideId).value, user.value) ==> out.value == Lookup(rides, rideId).value)
  {
    if !Truthy(user) then Unauthorized
    else if rideId.None? then BadRequest
    else match Lookup(rides, rideId)
      case None => NotFound
      case Some(r) =>
        var accepted := r.(status := Accepted, driver := Some(user.value));
        Ok(if AcceptModifies(r, user.value) then accepted.(updatedAt := now) else accepted)
  }

  // ---------------------------------------------------------------------
  // completeRide
  // ---------------------------------------------------------------------

  /**
   * The decision of the complete handler: 401 without a user, 404 when
   * the ride is unknown or not `in_progress`, and otherwise the completed
   * ride. It does not check who the caller is.
   */
  function Complete(rides: seq<Ride>, user: Option<UserId>, rideId: Option<RideId>,
                    now: int): (out: Outcome<Ride>)
    ensures out == Unauthorized <==> !Truthy(user)
    ensures out.Ok? <==>
      Truthy(user) && Lookup(rides, rideId).Some? && Lookup(rides, rideId).value.status == InProgress
    ensures out == NotFound <==> Truthy(user) && !out.Ok?
    ensures out.Ok? ==>
      && out.value.status == Completed && out.value.updatedAt == now
      && out.value.driver == Lookup(rides, rideId).value.driver
      && SameTrip(Lookup(rides, rideId).value, out.value)
  {
    if !Truthy(user) then Unauthorized
    else match Lookup(rides, rideId)
      case None => NotFound
      case Some(r) =>
        if r.status != InProgress then NotFound
        else Ok(r.(status := Completed, updatedAt := now))
  }

  // ---------------------------------------------------------------------
  // cancelRide
  // ---------------------------------------------------------------------

  /**
   * The decision of the cancel handler, whose checks run in this order:
   * 401 without a user, 404 for an unknown ride, 400 for a completed or
   * cancelled ride, 403 for a caller who is neither its rider nor its
   * driver; otherwise the cancelled ride.
   */
  function Cancel(rides: seq<Ride>, user: Option<UserId>, rideId: Option<RideId>,
                  now: int): (out: Outcome<Ride>)
    ensures out == Unauthorized <==> !Truthy(user)
    ensures out == NotFound <==> Truthy(user) && Lookup(rides, rideId).None?
    ensures out == BadRequest <==>
      Truthy(user) && Lookup(rides, rideId).Some? && Terminal(Lookup(rides, rideId).value.status)
    ensures out == Forbidden <==>
      && Truthy(user) && Lookup(rides, rideId).Some?
      && !Terminal(Lookup(rides, rideId).value.status)
      && !IsParticipant(Lookup(rides, rideId).value, user.value)
    ensures out.Ok? ==>
      && out.value.status == Cancelled && out.value.updatedAt == now
      && out.value.driver == Lookup(rides, rideId).value.driver
      && SameTrip(Lookup(rides, rideId).value, out.value)
  {
    if !Truthy(user) then Unauthorized
    else match Lookup(rides, rideId)
      case None => NotFound
      case Some(r) =>
        if Terminal(r.status) then BadRequest
        else if !IsParticipant(r, user.value) then Forbidden
        else Ok(r.(status := Cancelled, updatedAt := now))
  }

  // ---------------------------------------------------------------------
  // getRideHistory
  // ---------------------------------------------------------------------

  /**
   * The history query's filter: a caller whose role is exactly "rider"
   * sees the rides they rode in; a caller with any other role sees the
   * rides they drove.
   */
  predicate Participates(r: Ride, user: UserId, role: string) {
    if role == "rider" then r.rider == user else r.driver == Some(user)
  }

  /** `find` with that filter: the matching rides in collection order. */
  function Matching(rides: seq<Ride>, user: UserId, role: string): (m: seq<Ride>)
    ensures forall r :: r in m <==> r in rides && Participates(r, user, role)
    ensures forall r :: multiset(m)[r] == if Participates(r, user, role) then multiset(rides)[r] else 0
  {
    if |rides| == 0 then []
    else
      var rest := Matching(rides[..|rides| - 1], user, role);
      var last := rides[|rides| - 1];
      assert rides == rides[..|rides| - 1] + [last];
      if Participates(last, user, role) then rest + [last] else rest
  }

  /** `sort({ createdAt: -1 })`: most recently created first. */
  ghost predicate NewestFirst(s: seq<Ride>) {
    forall i, j | 0 <= i < j < |s| :: s[i].createdAt >= s[j].createdAt
  }

  /** Inserting one ride into a newest-first sequence. */
  function Insert(x: Ride, s: seq<Ride>): (r: seq<Ride>)
    requires NewestFirst(s)
    ensures NewestFirst(r)
    ensures multiset(r) == multiset(s) + multiset{x}
    ensures |r| == |s| + 1 && (r[0] == x || (|s| > 0 && r[0] == s[0]))
  {
    if |s| == 0 then [x]
    else if x.createdAt >= s[0].createdAt then [x] + s
    else
      var tail := Insert(x, s[1..]);
      assert s == [s[0]] + s[1..];
      assert s[0].createdAt >= tail[0].createdAt;
      [s[0]] + tail
  }

  /** Sorting rides newest first. */
  function SortNewest(s: seq<Ride>): (r: seq<Ride>)
    ensures NewestFirst(r)
    ensures multiset(r) == multiset(s)
  {
    if |s| == 0 then []
    else
      assert s == [s[0]] + s[1..];
      Insert(s[0], SortNewest(s[1..]))
  }

  /** Whether any ride of the collection is in the caller's history. */
  predicate HasHistory(rides: seq<Ride>, user: UserId, role: string) {
    exists i | 0 <= i < |rides| :: Participates(rides[i], user, role)
  }

  /**
   * The decision of the history handler: 401 without a user id or a role,
   * 404 when no ride matches, otherwise exactly the caller's rides, most
   * recently created first.
   */
  function History(rides: seq<Ride>, user: Option<UserId>, role: Option<string>): (out: Outcome<seq<Ride>>)
    ensures out == Unauthorized <==> !(Truthy(user) && Truthy(role))
    ensures out == NotFound <==>
      Truthy(user) && Truthy(role) && !HasHistory(rides, user.value, role.value)
    ensures out.Ok? <==>
      Truthy(user) && Truthy(role) && HasHistory(rides, user.value, role.value)
    ensures out.Ok? ==>
      && NewestFirst(out.value)
      && multiset(out.value) == multiset(Matching(rides, user.value, role.value))
      && (forall r :: r in out.value <==> r in rides && Participates(r, user.value, role.value))
  {
    if !Truthy(user) || !Truthy(role) then Unauthorized
    else
      var m := Matching(rides, user.value, role.value);
      var s := SortNewest(m);
      assert forall r :: r in s <==> r in m by {
        forall r ensures r in s <==> r in m {
          assert r in s <==> r in multiset(s);
          assert r in m <==> r in multiset(m);
        }
      }
      if |s| == 0 then
        assert !HasHistory(rides, user.value, role.value) by {
          forall i | 0 <= i < |rides| ensures !Participates(rides[i], user.value, role.value) {
            assert rides[i] in rides;
          }
        }
        NotFound
      else
        assert s[0] in m;
        Ok(s)
  }

  // ---------------------------------------------------------------------
  // Sequences of handler calls
  // ---------------------------------------------------------------------

  /** One handler call with its caller, arguments and time. */
  datatype Action =
    | RequestCall(user: Option<UserId>, pickup: Option<string>, dropoff: Option<string>, now: int)
    | AcceptCall(user: Option<UserId>, rideId: Option<RideId>, now: int)
    | CompleteCall(user: Option<UserId>, rideId: Option<RideId>, now: int)
    | CancelCall(user: Option<UserId>, rideId: Option<RideId>, now: int)

  /** The collection after one handler call. */
  function Apply(rides: seq<Ride>, a: Action): seq<Ride> {
    match a
    case RequestCall(u, p, d, t) =>
      var out := Request(u, p, d, t);
      if out.Ok? then rides + [out.value] else rides
    case AcceptCall(u, i, t) => Commit(rides, i, Accept(rides, u, i, t))
    case CompleteCall(u, i, t) => Commit(rides, i, Complete(rides, u, i, t))
    case CancelCall(u, i, t) => Commit(rides, i, Cancel(rides, u, i, t))
  }

  /** The collection after a sequence of handler calls on an empty one. */
  function Run(actions: seq<Action>): seq<Ride> {
    if |actions| == 0 then []
    else Apply(Run(actions[..|actions| - 1]), actions[|actions| - 1])
  }

  /** No ride of the collection is `in_progress`. */
  ghost predicate NoneInProgress(rides: seq<Ride>) {
    forall i | 0 <= i < |rides| :: rides[i].status != InProgress
  }

  /**
   * No handler writes `in_progress`: request writes `requested`, and the
   * others write `accepted`, `completed` or `cancelled` or nothing.
   */
  lemma ApplyKeepsNoneInProgress(rides: seq<Ride>, a: Action)
    requires NoneInProgress(rides)
    ensures NoneInProgress(Apply(rides, a))
  {
  }

  /** Every collection built by the handlers has no ride `in_progress`. */
  lemma {:induction false} RunNoneInProgress(actions: seq<Action>)
    ensures NoneInProgress(Run(actions))
  {
    if |actions| > 0 {
      RunNoneInProgress(actions[..|actions| - 1]);
      ApplyKeepsNoneInProgress(Run(actions[..|actions| - 1]), actions[|actions| - 1]);
    }
  }

  /**
   * So the complete handler never succeeds on a collection built by the
   * handlers, whoever calls it on whichever ride.
   */
  lemma CompleteNeverSucceeds(actions: seq<Action>, user: Option<UserId>, rideId: Option<RideId>, now: int)
    ensures !Complete(Run(actions), user, rideId, now).Ok?
  {
    RunNoneInProgress(actions);
  }

  // ---------------------------------------------------------------------
  // Properties relating several calls
  // ---------------------------------------------------------------------

  /**
   * The accept handler has no status guard: an existing ride in every
   * status, `completed` and `cancelled` included, is (re)accepted.
   */
  lemma AcceptIgnoresStatus(rides: seq<Ride>, user: UserId, rideId: RideId, now: int)
    requires user != "" && rideId < |rides|
    ensures Accept(rides, Some(user), Some(rideId), now).Ok?
    ensures Accept(rides, Some(user), Some(rideId), now).value.status == Accepted
  {
  }

  /**
   * Re-accepting a ride the caller already holds succeeds and leaves the
   * stored document exactly as it was, `updatedAt` included.
   */
  lemma ReacceptIsNoOp(rides: seq<Ride>, user: UserId, rideId: RideId, now: int)
    requires user != "" && rideId < |rides|
    requires rides[rideId].status == Accepted && rides[rideId].driver == Some(user)
    ensures Accept(rides, Some(user), Some(rideId), now) == Ok(rides[rideId])
    ensures Commit(rides, Some(rideId), Accept(rides, Some(user), Some(rideId), now)) == rides
  {
  }

  /**
   * Nor does it keep the first driver: a second accept by another
   * driver replaces the first.
   */
  lemma {:induction false} SecondAcceptReplacesDriver(rides: seq<Ride>, d1: UserId, d2: UserId,
                                                      rideId: RideId, t1: int, t2: int)
    requires d1 != "" && d2 != "" && rideId < |rides|
    ensures var once := Commit(rides, Some(rideId), Accept(rides, Some(d1), Some(rideId), t1));
      var twice := Commit(once, Some(rideId), Accept(once, Some(d2), Some(rideId), t2));
      Lookup(once, Some(rideId)).value.driver == Some(d1)
      && Lookup(twice, Some(rideId)).value.driver == Some(d2)
  {
    var once := Commit(rides, Some(rideId), Accept(rides, Some(d1), Some(rideId), t1));
    assert Lookup(once, Some(rideId)).value == Accept(rides, Some(d1), Some(rideId), t1).value;
  }

  /**
   * A cancelled ride cannot be cancelled again: the second call reports
   * 400 and the ride stays cancelled.
   */
  lemma {:induction false} CancelTwice(rides: seq<Ride>, user: UserId, again: UserId,
                                       rideId: RideId, t1: int, t2: int)
    requires user != "" && again != ""
    requires Cancel(rides, Some(user), Some(rideId), t1).Ok?
    ensures var once := Commit(rides, Some(rideId), Cancel(rides, Some(user), Some(rideId), t1));
      Cancel(once, Some(again), Some(rideId), t2) == BadRequest
      && Lookup(once, Some(rideId)).value.status == Cancelled
  {
    var once := Commit(rides, Some(rideId), Cancel(rides, Some(user), Some(rideId), t1));
    assert Lookup(once, Some(rideId)).value == Cancel(rides, Some(user), Some(rideId), t1).value;
  }

  /**
   * A requested ride appears in its rider's history: the history is not
   * empty and holds the new ride.
   */
  lemma RequestShowsInHistory(rides: seq<Ride>, user: UserId, pickup: string, dropoff: string, now: int)
    requires user != "" && pickup != "" && dropoff != ""
    ensures var ride := Request(Some(user), Some(pickup), Some(dropoff), now).value;
      var h := History(rides + [ride], Some(user), Some("rider"));
      h.Ok? && ride in h.value
  {
    var ride := Request(Some(user), Some(pickup), Some(dropoff), now).value;
    var after := rides + [ride];
    assert after[|rides|] == ride;
    assert HasHistory(after, user, "rider");
  }

  /** A caller who took part in no ride gets 404, not someone else's rides. */
  lemma NoRidesNoHistory(rides: seq<Ride>, user: UserId, role: string)
    requires user != "" && role != ""
    requires forall i | 0 <= i < |rides| :: rides[i].rider != user && rides[i].driver != Some(user)
    ensures History(rides, Some(user), Some(role)) == NotFound
  {
  }

  // ---------------------------------------------------------------------
  // The ride collection, updated in place
  // ---------------------------------------------------------------------

  /**
   * The ride collection. `log` is the sequence of handler calls made on
   * it since it was created; `Valid` ties the rides to those calls.
   */
  class RideStore {
    var rides: seq<Ride>
    ghost var log: seq<Action>

    ghost predicate Valid()
      reads this
    {
      rides == Run(log)
    }

    constructor ()
      ensures Valid() && rides == [] && log == []
    {
      rides := [];
      log := [];
    }

    /** Appends the call to the log; the rides are those after it. */
    ghost method Record(a: Action)
      requires rides == Apply(Run(log), a)
      modifies this`log
      ensures log == old(log) + [a] && Valid()
    {
      log := log + [a];
      assert log[..|log| - 1] == old(log);
    }

    /** requestRide: inserts the new ride under a fresh id. */
    method RequestRide(user: Option<UserId>, pickup: Option<string>, dropoff: Option<string>, now: int)
      returns (out: Outcome<Ride>, id: Option<RideId>)
      requires Valid()
      modifies this
      ensures Valid() && log == old(log) + [RequestCall(user, pickup, dropoff, now)]
      ensures out == Request(user, pickup, dropoff, now)
      ensures rides == if out.Ok? then old(rides) + [out.value] else old(rides)
      ensures id == if out.Ok? then Some(|old(rides)|) else None
    {
      if !Truthy(user) {
        out, id := Unauthorized, None;
      } else if !Truthy(pickup) || !Truthy(dropoff) {
        out, id := BadRequest, None;
      } else {
        var ride := Create(user.value, pickup.value, dropoff.value, None, None, None, now).value;
        id := Some(|rides|);
        rides := rides + [ride];
        out := Ok(ride);
      }
      Record(RequestCall(user, pickup, dropoff, now));
    }

    /** acceptRide: the ride becomes `accepted` with the caller as driver. */
    method AcceptRide(user: Option<UserId>, rideId: Option<RideId>, now: int) returns (out: Outcome<Ride>)
      requires Valid()
      modifies this
      ensures Valid() && log == old(log) + [AcceptCall(user, rideId, now)]
      ensures out == Accept(old(rides), user, rideId, now)
      ensures rides == Commit(old(rides), rideId, out)
    {
      if !Truthy(user) {
        out := Unauthorized;
      } else if rideId.None? {
        out := BadRequest;
      } else if rideId.value >= |rides| {
        out := NotFound;
      } else {
        var ride := rides[rideId.value];
        var modified := ride.status != Accepted || ride.driver != Some(user.value);
        ride := ride.(status := Accepted);
        ride := ride.(driver := Some(user.value));
        if modified {
          ride := ride.(updatedAt := now);
        }
        rides := rides[rideId.value := ride];
        out := Ok(ride);
      }
      Record(AcceptCall(user, rideId, now));
    }

    /**
     * completeRide: an `in_progress` ride becomes `completed`. Since the
     * store's rides are `Run(log)`, CompleteNeverSucceeds applies: on a
     * store built by these methods the call never succeeds.
     */
    method CompleteRide(user: Option<UserId>, rideId: Option<RideId>, now: int) returns (out: Outcome<Ride>)
      requires Valid()
      modifies this
      ensures Valid() && log == old(log) + [CompleteCall(user, rideId, now)]
      ensures out == Complete(old(rides), user, rideId, now)
      ensures rides == Commit(old(rides), rideId, out)
    {
      if !Truthy(user) {
        out := Unauthorized;
      } else if rideId.None? || rideId.value >= |rides| || rides[rideId.value].status != InProgress {
        out := NotFound;
      } else {
        var ride := rides[rideId.value];
        ride := ride.(status := Completed, updatedAt := now);
        rides := rides[rideId.value := ride];
        out := Ok(ride);
      }
      Record(CompleteCall(user, rideId, now));
    }

    /** cancelRide: a live ride becomes `cancelled` at the caller's request. */
    method CancelRide(user: Option<UserId>, rideId: Option<RideId>, now: int) returns (out: Outcome<Ride>)
      requires Valid()
      modifies this
      ensures Valid() && log == old(log) + [CancelCall(user, rideId, now)]
      ensures out == Cancel(old(rides), user, rideId, now)
      ensures rides == Commit(old(rides), rideId, out)
    {
      if !Truthy(user) {
        out := Unauthorized;
      } else if rideId.None? || rideId.value >= |rides| {
        out := NotFound;
      } else {
        var ride := rides[rideId.value];
        if ride.status == Completed || ride.status == Cancelled {
          out := BadRequest;
        } else if ride.rider != user.value && ride.driver != Some(user.value) {
          out := Forbidden;
        } else {
          ride := ride.(status := Cancelled);
          ride := ride.(updatedAt := now);
          rides := rides[rideId.value := ride];
          out := Ok(ride);
        }
      }
      Record(CancelCall(user, rideId, now));
    }
  }

  /**
   * On any store built by its own methods, the complete handler fails,
   * whoever calls it on whichever ride.
   */
  lemma StoreCompleteNeverSucceeds(store: RideStore, user: Option<UserId>, rideId: Option<RideId>, now: int)
    requires store.Valid()
    ensures !Complete(store.rides, user, rideId, now).Ok?
  {
    CompleteNeverSucceeds(store.log, user, rideId, now);
  }
}
