/**
  Entities of the ride-sharing core: users, rides and participations, their
  status vocabularies, the error outcomes of the endpoints, and the capacity
  calculator (a ride's available seats).
*/
module Domain {

  datatype Option<T> = None | Some(value: T)

  /** An opaque point in time: the parsed `rideDateAndTime` of a ride, or the
      clock reading that stamps an acceptance. Parsing and the clock are not
      modelled; callers hand in the value. */
  datatype Moment = Moment(stamp: int)

  datatype RideStatus = Ready | InProgress | Finished

  datatype ParticipationStatus =
    | Waiting
    | Rejected
    | Confirmed
    | InProgress
    | Completed
    | Missing
    | NotMarked

  /** A registered user; `carPlate` is None for a passenger-only user. */
  datatype User = User(alias: string, name: string, carPlate: Option<string>)
  {
    /** A driver is a user with a plate on file (any plate, even an empty one). */
    predicate IsDriver() { carPlate.Some? }
  }

  /** One rider's request for, and membership in, one ride. */
  datatype Participation = Participation(
    participant: User,
    rideId: int,
    destination: string,
    occupiedSpaces: int,
    status: ParticipationStatus,
    confirmation: Option<Moment>)

  datatype Ride = Ride(
    id: int,
    dateTime: Moment,
    finalAddress: string,
    allowedSpaces: int,
    driver: User,
    status: RideStatus,
    participations: seq<Participation>)

  /** The state a participation is constructed in: waiting, never confirmed. */
  function NewParticipation(participant: User, rideId: int, destination: string, occupiedSpaces: int): Participation
  {
    Participation(participant, rideId, destination, occupiedSpaces, Waiting, None)
  }

  /** The state a ride is constructed in: ready, with nobody on it. */
  function NewRide(id: int, dateTime: Moment, finalAddress: string, allowedSpaces: int, driver: User): Ride
  {
    Ride(id, dateTime, finalAddress, allowedSpaces, driver, Ready, [])
  }

  /** Why an endpoint refused a request. Every refusal leaves the store as it was. */
  datatype Error =
    | UserNotFound(alias: string)
    | RideNotFound(rideId: int)
    | NotRideOwner
    | NotADriver
    | MissingFields
    | BadDateFormat
    | AliasTaken
    | WrongRideStatus
    | WrongParticipationStatus
    | UnresolvedRequests
    | AlreadyRequested
    | NotEnoughSpaces(available: int)
    | ParticipationNotFound

  datatype Result<T> = Success(value: T) | Failure(error: Error)

  /** Python truthiness of an optional JSON integer: missing and 0 are falsy. */
  predicate Truthy(n: Option<int>) { n.Some? && n.value != 0 }

  // ---------------------------------------------------------------------------
  // Capacity calculator

  /** Only confirmed and boarded participations hold seats. */
  predicate HoldsSeats(s: ParticipationStatus)
  {
    s == Confirmed || s == ParticipationStatus.InProgress
  }

  function Held(p: Participation): int
  {
    if HoldsSeats(p.status) then p.occupiedSpaces else 0
  }

  /** Seats held by the participations of a ride. */
  function Occupied(ps: seq<Participation>): int
    decreases |ps|
  {
    if ps == [] then 0 else Occupied(ps[..|ps| - 1]) + Held(ps[|ps| - 1])
  }

  /** `Ride.available_spaces`: recomputed from the statuses every time. */
  function AvailableSpaces(ride: Ride): int
  {
    ride.allowedSpaces - Occupied(ride.participations)
  }

  /** The participations that hold seats, in list order: the filter of the
      source's generator expression. */
  function Holding(ps: seq<Participation>): seq<Participation>
    decreases |ps|
  {
    if ps == [] then []
    else Holding(ps[..|ps| - 1]) + (if HoldsSeats(ps[|ps| - 1].status) then [ps[|ps| - 1]] else [])
  }

  /** The plain sum of the seat counts of a list. */
  function SumSeats(ps: seq<Participation>): int
    decreases |ps|
  {
    if ps == [] then 0 else SumSeats(ps[..|ps| - 1]) + ps[|ps| - 1].occupiedSpaces
  }

  lemma SumSeatsAppend(ps: seq<Participation>, p: Participation)
    ensures SumSeats(ps + [p]) == SumSeats(ps) + p.occupiedSpaces
  {
    assert (ps + [p])[..|ps|] == ps;
  }

  /** The held seats are the sum of the seat counts of exactly the confirmed
      and boarded participations: waiting, rejected, missing, completed and
      not-marked ones count for nothing. */
  lemma {:induction false} OccupiedIsFilteredSum(ps: seq<Participation>)
    ensures Occupied(ps) == SumSeats(Holding(ps))
    ensures forall p :: p in Holding(ps) <==> p in ps && HoldsSeats(p.status)
    decreases |ps|
  {
    if ps != [] {
      var n := |ps| - 1;
      OccupiedIsFilteredSum(ps[..n]);
      assert ps == ps[..n] + [ps[n]];
      if HoldsSeats(ps[n].status) {
        SumSeatsAppend(Holding(ps[..n]), ps[n]);
      } else {
        assert Holding(ps) == Holding(ps[..n]);
      }
    }
  }

  lemma OccupiedAppend(ps: seq<Participation>, p: Participation)
    ensures Occupied(ps + [p]) == Occupied(ps) + Held(p)
  {
    assert (ps + [p])[..|ps|] == ps;
  }

  /** Replacing one participation changes the held seats by the difference of
      what the old and the new one hold, and by nothing else. */
  lemma {:induction false} OccupiedUpdate(ps: seq<Participation>, i: nat, q: Participation)
    requires i < |ps|
    ensures Occupied(ps[i := q]) == Occupied(ps) - Held(ps[i]) + Held(q)
    decreases |ps|
  {
    var n := |ps| - 1;
    if i == n {
      assert ps[i := q][..n] == ps[..n];
    } else {
      assert ps[i := q][..n] == ps[..n][i := q];
      OccupiedUpdate(ps[..n], i, q);
    }
  }

  /** Where no participation holds more seats than before, the total held does
      not grow either. */
  lemma {:induction false} OccupiedMonotone(ps: seq<Participation>, qs: seq<Participation>)
    requires |ps| == |qs|
    requires forall i :: 0 <= i < |ps| ==> Held(qs[i]) <= Held(ps[i])
    ensures Occupied(qs) <= Occupied(ps)
    decreases |ps|
  {
    if ps != [] {
      var n := |ps| - 1;
      OccupiedMonotone(ps[..n], qs[..n]);
    }
  }

  /** A ride none of whose participations holds seats has all of its seats free. */
  lemma {:induction false} OccupiedNoneHeld(ps: seq<Participation>)
    requires forall i :: 0 <= i < |ps| ==> !HoldsSeats(ps[i].status)
    ensures Occupied(ps) == 0
    decreases |ps|
  {
    if ps != [] {
      OccupiedNoneHeld(ps[..|ps| - 1]);
    }
  }

  /** With no negative seat counts, the held seats are never negative, so a
      ride never offers more than its allowed seats. */
  lemma {:induction false} OccupiedNonNegative(ps: seq<Participation>)
    requires SeatsNonNegative(ps)
    ensures Occupied(ps) >= 0
    decreases |ps|
  {
    if ps != [] {
      OccupiedNonNegative(ps[..|ps| - 1]);
    }
  }

  // ---------------------------------------------------------------------------
  // Shape of a ride's participation list

  predicate SeatsNonNegative(ps: seq<Participation>)
  {
    forall i :: 0 <= i < |ps| ==> ps[i].occupiedSpaces >= 0
  }

  predicate HasAlias(ps: seq<Participation>, alias: string)
  {
    exists i :: 0 <= i < |ps| && ps[i].participant.alias == alias
  }

  /** No two participations of one ride belong to the same alias. */
  predicate UniqueAliases(ps: seq<Participation>)
  {
    forall i, j :: 0 <= i < j < |ps| ==> ps[i].participant.alias != ps[j].participant.alias
  }

  /** The first participation of `alias`, as the endpoints' first-match loops find it. */
  function FirstIndex(ps: seq<Participation>, alias: string): (r: Option<nat>)
    ensures r.Some? ==> r.value < |ps| && ps[r.value].participant.alias == alias
    ensures r.Some? ==> forall j :: 0 <= j < r.value ==> ps[j].participant.alias != alias
    ensures r.None? <==> !HasAlias(ps, alias)
    decreases |ps|
  {
    if ps == [] then None
    else if ps[0].participant.alias == alias then Some(0)
    else match FirstIndex(ps[1..], alias)
      case None => None
      case Some(k) => Some(k + 1)
  }

  /** On a list without duplicate aliases the first match is the only one. */
  lemma FirstIndexUnique(ps: seq<Participation>, alias: string, i: nat)
    requires UniqueAliases(ps)
    requires i < |ps| && ps[i].participant.alias == alias
    ensures FirstIndex(ps, alias) == Some(i)
  {
  }

  /** Which participation statuses a ride in a given status can hold. */
  predicate Allowed(rs: RideStatus, s: ParticipationStatus)
  {
    match rs
    case Ready => s == Waiting || s == Confirmed || s == Rejected
    case InProgress => s == Rejected || s == ParticipationStatus.InProgress || s == Completed || s == Missing
    case Finished => s == Rejected || s == Completed || s == Missing || s == NotMarked
  }

  predicate Coherent(ride: Ride)
  {
    forall i :: 0 <= i < |ride.participations| ==> Allowed(ride.status, ride.participations[i].status)
  }

  /** What the store keeps true of the ride it files under `id`. */
  predicate RideOk(id: int, ride: Ride)
  {
    && ride.id == id
    && UniqueAliases(ride.participations)
    && (forall i :: 0 <= i < |ride.participations| ==> ride.participations[i].rideId == id)
    && Coherent(ride)
  }
}
