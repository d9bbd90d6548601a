/**
  The participation and ride state machines, as functions from a ride to the
  ride after one endpoint's checks and updates (or the error it reports).
  Each function keeps the order of the endpoint's checks, so the first failing
  check decides the error. The endpoint methods in module Api are proved to do
  exactly what these functions say.
*/
module Lifecycle {
  import opened Domain

  // ---------------------------------------------------------------------------
  // Participation lifecycle

  /** request-to-join: a new waiting participation at the end of the list. */
  function Join(ride: Ride, participant: User, destination: string, occupiedSpaces: Option<int>): Result<Ride>
  {
    if ride.status != Ready then Failure(WrongRideStatus)
    else if HasAlias(ride.participations, participant.alias) then Failure(AlreadyRequested)
    else if destination == "" || !Truthy(occupiedSpaces) then Failure(MissingFields)
    else if occupiedSpaces.value > AvailableSpaces(ride) then Failure(NotEnoughSpaces(AvailableSpaces(ride)))
    else Success(ride.(participations := ride.participations
                        + [NewParticipation(participant, ride.id, destination, occupiedSpaces.value)]))
  }

  /** accept: the alias's waiting participation becomes confirmed at `now`. */
  function Accept(ride: Ride, alias: string, now: Moment): Result<Ride>
  {
    var ps := ride.participations;
    if ride.status != Ready then Failure(WrongRideStatus)
    else match FirstIndex(ps, alias)
      case None => Failure(ParticipationNotFound)
      case Some(i) =>
        if ps[i].status != Waiting then Failure(WrongParticipationStatus)
        else if ps[i].occupiedSpaces > AvailableSpaces(ride) then Failure(NotEnoughSpaces(AvailableSpaces(ride)))
        else Success(ride.(participations := ps[i := ps[i].(status := Confirmed, confirmation := Some(now))]))
  }

  /** reject: the alias's waiting participation becomes rejected. */
  function Reject(ride: Ride, alias: string): Result<Ride>
  {
    var ps := ride.participations;
    if ride.status != Ready then Failure(WrongRideStatus)
    else match FirstIndex(ps, alias)
      case None => Failure(ParticipationNotFound)
      case Some(i) =>
        if ps[i].status != Waiting then Failure(WrongParticipationStatus)
        else Success(ride.(participations := ps[i := ps[i].(status := Rejected)]))
  }

  /** unload: the alias's boarded participation becomes completed. */
  function Unload(ride: Ride, alias: string): Result<Ride>
  {
    var ps := ride.participations;
    if ride.status != RideStatus.InProgress then Failure(WrongRideStatus)
    else match FirstIndex(ps, alias)
      case None => Failure(ParticipationNotFound)
      case Some(i) =>
        if ps[i].status != ParticipationStatus.InProgress then Failure(WrongParticipationStatus)
        else Success(ride.(participations := ps[i := ps[i].(status := Completed)]))
  }

  // ---------------------------------------------------------------------------
  // Ride lifecycle

  /** A request the driver has answered. */
  predicate Resolved(p: Participation)
  {
    p.status == Confirmed || p.status == Rejected
  }

  /** The roll call of start: a confirmed rider boards if present, else is missing. */
  function Board(p: Participation, present: set<string>): Participation
  {
    if p.status != Confirmed then p
    else if p.participant.alias in present then p.(status := ParticipationStatus.InProgress)
    else p.(status := Missing)
  }

  function RollCall(ps: seq<Participation>, present: set<string>): seq<Participation>
  {
    seq(|ps|, i requires 0 <= i < |ps| => Board(ps[i], present))
  }

  /** The sweep of end: a rider still on board was never marked as dropped off. */
  function Close(p: Participation): Participation
  {
    if p.status == ParticipationStatus.InProgress then p.(status := NotMarked) else p
  }

  function Sweep(ps: seq<Participation>): seq<Participation>
  {
    seq(|ps|, i requires 0 <= i < |ps| => Close(ps[i]))
  }

  function Start(ride: Ride, present: set<string>): Result<Ride>
  {
    var ps := ride.participations;
    if ride.status != Ready then Failure(WrongRideStatus)
    else if exists i :: 0 <= i < |ps| && !Resolved(ps[i]) then Failure(UnresolvedRequests)
    else Success(ride.(status := RideStatus.InProgress, participations := RollCall(ps, present)))
  }

  function End(ride: Ride): Result<Ride>
  {
    if ride.status != RideStatus.InProgress then Failure(WrongRideStatus)
    else Success(ride.(status := Finished, participations := Sweep(ride.participations)))
  }

  // ---------------------------------------------------------------------------
  // Properties of the participation lifecycle

  /** A second request by the same alias is refused whatever the state of the
      first one, as long as the ride is still open. */
  lemma JoinRefusesDuplicate(ride: Ride, participant: User, destination: string, occupiedSpaces: Option<int>, i: nat)
    requires ride.status == Ready
    requires i < |ride.participations| && ride.participations[i].participant.alias == participant.alias
    ensures Join(ride, participant, destination, occupiedSpaces) == Failure(AlreadyRequested)
  {
  }

  /** A join succeeds exactly when the ride is open, the alias is new to it, the
      fields are given and the seats fit; then exactly one waiting,
      unconfirmed participation is appended and the free seats do not change. */
  lemma JoinSucceedsIff(ride: Ride, participant: User, destination: string, occupiedSpaces: Option<int>)
    ensures Join(ride, participant, destination, occupiedSpaces).Success? <==>
      && ride.status == Ready
      && (forall i :: 0 <= i < |ride.participations| ==> ride.participations[i].participant.alias != participant.alias)
      && destination != "" && Truthy(occupiedSpaces)
      && occupiedSpaces.value <= AvailableSpaces(ride)
    ensures Join(ride, participant, destination, occupiedSpaces).Success? ==>
      var r := Join(ride, participant, destination, occupiedSpaces).value;
      && |r.participations| == |ride.participations| + 1
      && r.participations[..|ride.participations|] == ride.participations
      && r.participations[|ride.participations|].status == Waiting
      && r.participations[|ride.participations|].confirmation == None
      && r.participations[|ride.participations|].participant == participant
      && r.participations[|ride.participations|].occupiedSpaces == occupiedSpaces.value
      && r.status == ride.status
      && AvailableSpaces(r) == AvailableSpaces(ride)
  {
    if Join(ride, participant, destination, occupiedSpaces).Success? {
      var p := NewParticipation(participant, ride.id, destination, occupiedSpaces.value);
      OccupiedAppend(ride.participations, p);
      assert (ride.participations + [p])[..|ride.participations|] == ride.participations;
    }
  }

  /** Joining keeps the list free of duplicate aliases, and keeps every
      invariant the store maintains for the ride. */
  lemma JoinKeepsRideOk(id: int, ride: Ride, participant: User, destination: string, occupiedSpaces: Option<int>)
    requires RideOk(id, ride)
    ensures Join(ride, participant, destination, occupiedSpaces).Success? ==>
      RideOk(id, Join(ride, participant, destination, occupiedSpaces).value)
  {
    if Join(ride, participant, destination, occupiedSpaces).Success? {
      var ps := Join(ride, participant, destination, occupiedSpaces).value.participations;
      var n := |ride.participations|;
      forall i, j | 0 <= i < j < |ps|
        ensures ps[i].participant.alias != ps[j].participant.alias
      {
        if j == n {
          assert ps[i] == ride.participations[i];
        }
      }
    }
  }

  /** Acceptance takes exactly the participation's seats from the free seats,
      and the capacity check makes sure that never drives them below zero. */
  lemma AcceptTakesSeats(ride: Ride, alias: string, now: Moment)
    ensures Accept(ride, alias, now).Success? ==>
      var i := FirstIndex(ride.participations, alias).value;
      && AvailableSpaces(Accept(ride, alias, now).value)
           == AvailableSpaces(ride) - ride.participations[i].occupiedSpaces
      && AvailableSpaces(Accept(ride, alias, now).value) >= 0
  {
    if Accept(ride, alias, now).Success? {
      var ps := ride.participations;
      var i := FirstIndex(ps, alias).value;
      OccupiedUpdate(ps, i, ps[i].(status := Confirmed, confirmation := Some(now)));
    }
  }

  /** On a list without duplicate aliases, accept succeeds exactly when the ride
      is open and the alias's participation is waiting and fits; it then
      confirms and stamps that participation and changes no other. */
  lemma AcceptSucceedsIff(ride: Ride, alias: string, now: Moment, i: nat)
    requires UniqueAliases(ride.participations)
    requires i < |ride.participations| && ride.participations[i].participant.alias == alias
    ensures Accept(ride, alias, now).Success? <==>
      && ride.status == Ready
      && ride.participations[i].status == Waiting
      && ride.participations[i].occupiedSpaces <= AvailableSpaces(ride)
    ensures ride.status == Ready && ride.participations[i].status != Waiting ==>
      Accept(ride, alias, now) == Failure(WrongParticipationStatus)
    ensures Accept(ride, alias, now).Success? ==>
      var ps' := Accept(ride, alias, now).value.participations;
      && |ps'| == |ride.participations|
      && ps'[i].status == Confirmed && ps'[i].confirmation == Some(now)
      && ps'[i].occupiedSpaces == ride.participations[i].occupiedSpaces
      && (forall j :: 0 <= j < |ps'| && j != i ==> ps'[j] == ride.participations[j])
  {
    FirstIndexUnique(ride.participations, alias, i);
  }

  /** On a list without duplicate aliases, reject succeeds exactly when the ride
      is open and the alias's participation is waiting; it marks only that
      participation rejected, leaves its confirmation as it was, and frees or
      takes no seats. */
  lemma RejectSucceedsIff(ride: Ride, alias: string, i: nat)
    requires UniqueAliases(ride.participations)
    requires i < |ride.participations| && ride.participations[i].participant.alias == alias
    ensures Reject(ride, alias).Success? <==>
      ride.status == Ready && ride.participations[i].status == Waiting
    ensures ride.status == Ready && ride.participations[i].status != Waiting ==>
      Reject(ride, alias) == Failure(WrongParticipationStatus)
    ensures Reject(ride, alias).Success? ==>
      var ps' := Reject(ride, alias).value.participations;
      && |ps'| == |ride.participations|
      && ps'[i].status == Rejected
      && ps'[i].confirmation == ride.participations[i].confirmation
      && (forall j :: 0 <= j < |ps'| && j != i ==> ps'[j] == ride.participations[j])
      && AvailableSpaces(Reject(ride, alias).value) == AvailableSpaces(ride)
  {
    FirstIndexUnique(ride.participations, alias, i);
    if Reject(ride, alias).Success? {
      var ps := ride.participations;
      OccupiedUpdate(ps, i, ps[i].(status := Rejected));
    }
  }

  /** On a list without duplicate aliases, unload succeeds exactly when the ride
      and the alias's participation are both in progress; it completes only
      that participation and gives its seats back. */
  lemma UnloadSucceedsIff(ride: Ride, alias: string, i: nat)
    requires UniqueAliases(ride.participations)
    requires i < |ride.participations| && ride.participations[i].participant.alias == alias
    ensures Unload(ride, alias).Success? <==>
      ride.status == RideStatus.InProgress && ride.participations[i].status == ParticipationStatus.InProgress
    ensures ride.status == RideStatus.InProgress && ride.participations[i].status != ParticipationStatus.InProgress ==>
      Unload(ride, alias) == Failure(WrongParticipationStatus)
    ensures Unload(ride, alias).Success? ==>
      var ps' := Unload(ride, alias).value.participations;
      && |ps'| == |ride.participations|
      && ps'[i].status == Completed
      && (forall j :: 0 <= j < |ps'| && j != i ==> ps'[j] == ride.participations[j])
      && AvailableSpaces(Unload(ride, alias).value) == AvailableSpaces(ride) + ride.participations[i].occupiedSpaces
  {
    FirstIndexUnique(ride.participations, alias, i);
    if Unload(ride, alias).Success? {
      var ps := ride.participations;
      OccupiedUpdate(ps, i, ps[i].(status := Completed));
    }
  }

  /** An alias with no participation on the ride gets a not-found error from
      accept, reject and unload once the ride status check has passed. */
  lemma NoParticipationNotFound(ride: Ride, alias: string, now: Moment)
    requires !HasAlias(ride.participations, alias)
    ensures ride.status == Ready ==> Accept(ride, alias, now) == Failure(ParticipationNotFound)
    ensures ride.status == Ready ==> Reject(ride, alias) == Failure(ParticipationNotFound)
    ensures ride.status == RideStatus.InProgress ==> Unload(ride, alias) == Failure(ParticipationNotFound)
  {
  }

  lemma AcceptKeepsRideOk(id: int, ride: Ride, alias: string, now: Moment)
    requires RideOk(id, ride)
    ensures Accept(ride, alias, now).Success? ==> RideOk(id, Accept(ride, alias, now).value)
  {
  }

  lemma RejectKeepsRideOk(id: int, ride: Ride, alias: string)
    requires RideOk(id, ride)
    ensures Reject(ride, alias).Success? ==> RideOk(id, Reject(ride, alias).value)
  {
  }

  lemma UnloadKeepsRideOk(id: int, ride: Ride, alias: string)
    requires RideOk(id, ride)
    ensures Unload(ride, alias).Success? ==> RideOk(id, Unload(ride, alias).value)
  {
  }

  // ---------------------------------------------------------------------------
  // Properties of the ride lifecycle

  /** Start succeeds exactly on an open ride whose requests are all answered.
      Then the ride is in progress, every confirmed rider is on board if
      present and missing otherwise, rejected riders are untouched, and nobody
      is left waiting or confirmed. */
  lemma StartOutcome(ride: Ride, present: set<string>)
    ensures Start(ride, present).Success? <==>
      ride.status == Ready && forall i :: 0 <= i < |ride.participations| ==> Resolved(ride.participations[i])
    ensures Start(ride, present).Success? ==>
      var ps := ride.participations;
      var ps' := Start(ride, present).value.participations;
      && Start(ride, present).value.status == RideStatus.InProgress
      && |ps'| == |ps|
      && (forall i :: 0 <= i < |ps| && ps[i].status == Confirmed && ps[i].participant.alias in present ==>
            ps'[i] == ps[i].(status := ParticipationStatus.InProgress))
      && (forall i :: 0 <= i < |ps| && ps[i].status == Confirmed && ps[i].participant.alias !in present ==>
            ps'[i] == ps[i].(status := Missing))
      && (forall i :: 0 <= i < |ps| && ps[i].status == Rejected ==> ps'[i] == ps[i])
      && (forall i :: 0 <= i < |ps| ==> ps'[i].status != Waiting && ps'[i].status != Confirmed)
  {
  }

  /** Start never takes seats; with no negative seat counts it only gives back
      the seats of the missing riders. */
  lemma StartFreesSeats(ride: Ride, present: set<string>)
    requires SeatsNonNegative(ride.participations)
    ensures Start(ride, present).Success? ==>
      AvailableSpaces(Start(ride, present).value) >= AvailableSpaces(ride)
  {
    if Start(ride, present).Success? {
      OccupiedMonotone(ride.participations, RollCall(ride.participations, present));
    }
  }

  /** End succeeds exactly on a ride in progress; then the ride is finished, no
      participation is left in progress, every one that was becomes not-marked
      and every other one is untouched. On a coherent ride every seat is free
      afterwards. */
  lemma EndOutcome(ride: Ride)
    requires Coherent(ride)
    ensures End(ride).Success? <==> ride.status == RideStatus.InProgress
    ensures End(ride).Success? ==>
      var ps := ride.participations;
      var ps' := End(ride).value.participations;
      && End(ride).value.status == Finished
      && |ps'| == |ps|
      && (forall i :: 0 <= i < |ps| && ps[i].status == ParticipationStatus.InProgress ==>
            ps'[i] == ps[i].(status := NotMarked))
      && (forall i :: 0 <= i < |ps| && ps[i].status != ParticipationStatus.InProgress ==> ps'[i] == ps[i])
      && (forall i :: 0 <= i < |ps'| ==> ps'[i].status != ParticipationStatus.InProgress)
      && AvailableSpaces(End(ride).value) == ride.allowedSpaces
  {
    if End(ride).Success? {
      var ps' := End(ride).value.participations;
      assert forall i :: 0 <= i < |ps'| ==> !HoldsSeats(ps'[i].status) by {
        forall i | 0 <= i < |ps'| ensures !HoldsSeats(ps'[i].status) {
          assert Allowed(ride.status, ride.participations[i].status);
        }
      }
      OccupiedNoneHeld(ps');
    }
  }

  /** A start with nobody present straight followed by an end marks every
      confirmed rider missing and leaves a finished ride with nobody on board. */
  lemma StartThenEndWithNobodyPresent(ride: Ride)
    requires Start(ride, {}).Success?
    ensures End(Start(ride, {}).value).Success?
    ensures
      var ps := ride.participations;
      var fin := End(Start(ride, {}).value).value;
      && fin.status == Finished
      && |fin.participations| == |ps|
      && (forall i :: 0 <= i < |ps| && ps[i].status == Confirmed ==> fin.participations[i].status == Missing)
      && (forall i :: 0 <= i < |ps| ==> fin.participations[i].status != ParticipationStatus.InProgress)
  {
  }

  lemma StartKeepsRideOk(id: int, ride: Ride, present: set<string>)
    requires RideOk(id, ride)
    ensures Start(ride, present).Success? ==> RideOk(id, Start(ride, present).value)
  {
  }

  lemma EndKeepsRideOk(id: int, ride: Ride)
    requires RideOk(id, ride)
    ensures End(ride).Success? ==> RideOk(id, End(ride).value)
  {
  }

  /** Position of a ride status on the line ready, in progress, finished. */
  function Rank(s: RideStatus): nat
  {
    match s
    case Ready => 0
    case InProgress => 1
    case Finished => 2
  }

  /** The fields of a ride that no operation may touch. */
  predicate SameRide(a: Ride, b: Ride)
  {
    a.id == b.id && a.dateTime == b.dateTime && a.finalAddress == b.finalAddress
    && a.allowedSpaces == b.allowedSpaces && a.driver == b.driver
  }

  /** A ride's status only moves forward, one step at a time, and only start
      and end move it; its driver, capacity and schedule never change. */
  lemma RideStatusMonotone(ride: Ride, u: User, destination: string, seats: Option<int>,
                           alias: string, now: Moment, present: set<string>)
    ensures var r := Join(ride, u, destination, seats);
      r.Success? ==> SameRide(ride, r.value) && r.value.status == ride.status
    ensures var r := Accept(ride, alias, now);
      r.Success? ==> SameRide(ride, r.value) && r.value.status == ride.status
    ensures var r := Reject(ride, alias);
      r.Success? ==> SameRide(ride, r.value) && r.value.status == ride.status
    ensures var r := Unload(ride, alias);
      r.Success? ==> SameRide(ride, r.value) && r.value.status == ride.status
    ensures var r := Start(ride, present);
      r.Success? ==> SameRide(ride, r.value) && Rank(r.value.status) == Rank(ride.status) + 1
    ensures var r := End(ride);
      r.Success? ==> SameRide(ride, r.value) && Rank(r.value.status) == Rank(ride.status) + 1
  {
  }

  // ---------------------------------------------------------------------------
  // Seat accounting across every transition

  /** Sound seat accounting: no negative seat counts and no negative free seats. */
  predicate SeatsSound(ride: Ride)
  {
    SeatsNonNegative(ride.participations) && AvailableSpaces(ride) >= 0
  }

  /** A join adds a request that holds no seats yet, so the free seats stay as
      they were (a negative request brings a negative count in, though). */
  lemma JoinKeepsCapacity(ride: Ride, u: User, destination: string, seats: Option<int>)
    requires SeatsSound(ride)
    ensures var r := Join(ride, u, destination, seats);
      r.Success? ==> AvailableSpaces(r.value) == AvailableSpaces(ride)
                     && (seats.value >= 0 ==> SeatsSound(r.value))
  {
    if Join(ride, u, destination, seats).Success? {
      OccupiedAppend(ride.participations, NewParticipation(u, ride.id, destination, seats.value));
    }
  }

  /** Accept checks the request against the free seats, so they stay non-negative. */
  lemma AcceptKeepsCapacity(ride: Ride, alias: string, now: Moment)
    requires SeatsSound(ride)
    ensures Accept(ride, alias, now).Success? ==> SeatsSound(Accept(ride, alias, now).value)
  {
    AcceptTakesSeats(ride, alias, now);
  }

  lemma RejectKeepsCapacity(ride: Ride, alias: string)
    requires SeatsSound(ride)
    ensures Reject(ride, alias).Success? ==> SeatsSound(Reject(ride, alias).value)
  {
    if Reject(ride, alias).Success? {
      var ps := ride.participations;
      var i := FirstIndex(ps, alias).value;
      OccupiedUpdate(ps, i, ps[i].(status := Rejected));
    }
  }

  lemma UnloadKeepsCapacity(ride: Ride, alias: string)
    requires SeatsSound(ride)
    ensures Unload(ride, alias).Success? ==> SeatsSound(Unload(ride, alias).value)
  {
    if Unload(ride, alias).Success? {
      var ps := ride.participations;
      var i := FirstIndex(ps, alias).value;
      OccupiedUpdate(ps, i, ps[i].(status := Completed));
    }
  }

  lemma StartKeepsCapacity(ride: Ride, present: set<string>)
    requires SeatsSound(ride)
    ensures Start(ride, present).Success? ==> SeatsSound(Start(ride, present).value)
  {
    StartFreesSeats(ride, present);
  }

  lemma EndKeepsCapacity(ride: Ride)
    requires SeatsSound(ride)
    ensures End(ride).Success? ==> SeatsSound(End(ride).value)
  {
    if End(ride).Success? {
      OccupiedMonotone(ride.participations, Sweep(ride.participations));
    }
  }

  // The trace of NegativeSeatsOverbook, one transition per helper lemma.
  function OneSeat(d: User, when: Moment, ps: seq<Participation>): Ride
  {
    NewRide(1, when, "Av Javier Prado 456", 1, d).(participations := ps)
  }

  function Confirm(p: Participation, now: Moment): Participation
  {
    p.(status := Confirmed, confirmation := Some(now))
  }

  lemma OverbookJoinMinusOne(d: User, b: User, when: Moment)
    ensures Join(OneSeat(d, when, []), b, "Jr Union 12", Some(-1))
         == Success(OneSeat(d, when, [NewParticipation(b, 1, "Jr Union 12", -1)]))
  {
    assert Occupied([]) == 0;
    assert [] + [NewParticipation(b, 1, "Jr Union 12", -1)] == [NewParticipation(b, 1, "Jr Union 12", -1)];
  }

  lemma OverbookAcceptMinusOne(d: User, b: User, when: Moment, now: Moment)
    ensures var pb := NewParticipation(b, 1, "Jr Union 12", -1);
      Accept(OneSeat(d, when, [pb]), b.alias, now) == Success(OneSeat(d, when, [Confirm(pb, now)]))
  {
    var pb := NewParticipation(b, 1, "Jr Union 12", -1);
    assert FirstIndex([pb], b.alias) == Some(0);
    assert Occupied([]) == 0;
    OccupiedAppend([], pb);
    assert [] + [pb] == [pb];
    assert [pb][0 := Confirm(pb, now)] == [Confirm(pb, now)];
  }

  lemma OverbookJoinTwo(d: User, a: User, b: User, when: Moment, now: Moment)
    requires a.alias != b.alias
    ensures var cb := Confirm(NewParticipation(b, 1, "Jr Union 12", -1), now);
      Join(OneSeat(d, when, [cb]), a, "Av Aramburu 245", Some(2))
        == Success(OneSeat(d, when, [cb, NewParticipation(a, 1, "Av Aramburu 245", 2)]))
  {
    var cb := Confirm(NewParticipation(b, 1, "Jr Union 12", -1), now);
    assert !HasAlias([cb], a.alias);
    assert Occupied([]) == 0;
    OccupiedAppend([], cb);
    assert [] + [cb] == [cb];
    assert AvailableSpaces(OneSeat(d, when, [cb])) == 2;
    assert [cb] + [NewParticipation(a, 1, "Av Aramburu 245", 2)] == [cb, NewParticipation(a, 1, "Av Aramburu 245", 2)];
  }

  lemma OverbookAcceptTwo(d: User, a: User, b: User, when: Moment, now: Moment)
    requires a.alias != b.alias
    ensures var cb := Confirm(NewParticipation(b, 1, "Jr Union 12", -1), now);
      var pa := NewParticipation(a, 1, "Av Aramburu 245", 2);
      Accept(OneSeat(d, when, [cb, pa]), a.alias, now) == Success(OneSeat(d, when, [cb, Confirm(pa, now)]))
  {
    var cb := Confirm(NewParticipation(b, 1, "Jr Union 12", -1), now);
    var pa := NewParticipation(a, 1, "Av Aramburu 245", 2);
    assert FirstIndex([cb, pa], a.alias) == Some(1);
    assert Occupied([]) == 0;
    OccupiedAppend([], cb);
    assert [] + [cb] == [cb];
    OccupiedAppend([cb], pa);
    assert [cb] + [pa] == [cb, pa];
    assert [cb, pa][1 := Confirm(pa, now)] == [cb, Confirm(pa, now)];
  }

  lemma OverbookStart(d: User, a: User, b: User, when: Moment, now: Moment)
    requires a.alias != b.alias
    ensures var cb := Confirm(NewParticipation(b, 1, "Jr Union 12", -1), now);
      var ca := Confirm(NewParticipation(a, 1, "Av Aramburu 245", 2), now);
      var r := Start(OneSeat(d, when, [cb, ca]), {a.alias});
      && r == Success(OneSeat(d, when, [cb.(status := Missing), ca.(status := ParticipationStatus.InProgress)])
                        .(status := RideStatus.InProgress))
      && AvailableSpaces(r.value) == -1
  {
    var cb := Confirm(NewParticipation(b, 1, "Jr Union 12", -1), now);
    var ca := Confirm(NewParticipation(a, 1, "Av Aramburu 245", 2), now);
    var mb, ia := cb.(status := Missing), ca.(status := ParticipationStatus.InProgress);
    assert RollCall([cb, ca], {a.alias}) == [mb, ia];
    assert Occupied([]) == 0;
    OccupiedAppend([], mb);
    assert [] + [mb] == [mb];
    OccupiedAppend([mb], ia);
    assert [mb] + [ia] == [mb, ia];
  }

  /** What the code allows but evidently does not mean to: its truthiness
      check on the seat count refuses only a missing or zero count, so a
      request for -1 seats passes, and once it is confirmed a one-seat ride
      can take a second rider for two seats. After the start with only
      that second rider present, two seats are held on a one-seat ride. */
  lemma NegativeSeatsOverbook(d: User, a: User, b: User, when: Moment, now: Moment)
    requires a.alias != b.alias
    ensures
      var r1 := Join(NewRide(1, when, "Av Javier Prado 456", 1, d), b, "Jr Union 12", Some(-1));
      && r1.Success?
      && var r2 := Accept(r1.value, b.alias, now);
      && r2.Success?
      && var r3 := Join(r2.value, a, "Av Aramburu 245", Some(2));
      && r3.Success?
      && var r4 := Accept(r3.value, a.alias, now);
      && r4.Success?
      && var r5 := Start(r4.value, {a.alias});
      && r5.Success?
      && AvailableSpaces(r5.value) == -1
  {
    assert NewRide(1, when, "Av Javier Prado 456", 1, d) == OneSeat(d, when, []);
    OverbookJoinMinusOne(d, b, when);
    OverbookAcceptMinusOne(d, b, when, now);
    OverbookJoinTwo(d, a, b, when, now);
    OverbookAcceptTwo(d, a, b, when, now);
    OverbookStart(d, a, b, when, now);
  }

  /** The code never compares the requester with the ride's driver: a driver
      may ask to join their own ride. */
  lemma DriverMayJoinOwnRide(d: User, when: Moment)
    ensures Join(NewRide(1, when, "Av Javier Prado 456", 2, d), d, "Av Aramburu 245", Some(1)).Success?
  {
    assert Occupied([]) == 0;
  }
}
