/**
  The endpoints of the ride-sharing service without their HTTP layer: each
  takes the store and its already-parsed arguments, and returns success or the
  error the source answers with. All checks run before anything is changed, so
  a refused request leaves the store exactly as it was.
*/
module Api {
  import opened Domain
  import opened Lifecycle
  import opened Stats
  import opened Store

  // ---------------------------------------------------------------------------
  // What each endpoint does to the store, as functions of the old state

  function Reply(step: Result<Ride>): Result<()>
  {
    match step
    case Success(_) => Success(())
    case Failure(e) => Failure(e)
  }

  /** The rides after a step: the updated ride replaces the old one, or
      nothing changes when the step failed. */
  function Commit(rides: map<int, Ride>, id: int, step: Result<Ride>): map<int, Ride>
  {
    if step.Success? then rides[id := step.value] else rides
  }

  /** The lookups every driver endpoint starts with: the driver exists, the
      ride exists and belongs to that driver. */
  function DriversRide(users: map<string, User>, rides: map<int, Ride>, driverAlias: string, rideId: int): Result<Ride>
  {
    if driverAlias !in users then Failure(UserNotFound(driverAlias))
    else if rideId !in rides then Failure(RideNotFound(rideId))
    else if rides[rideId].driver.alias != driverAlias then Failure(NotRideOwner)
    else Success(rides[rideId])
  }

  /** `create_ride`'s checks in the order the code makes them, then the ride
      it files under the next id. */
  function CreateStep(users: map<string, User>, nextId: int, driverAlias: string, dateTimeText: string,
                      parsed: Option<Moment>, finalAddress: string, allowedSpaces: Option<int>): Result<Ride>
  {
    if driverAlias !in users then Failure(UserNotFound(driverAlias))
    else if !users[driverAlias].IsDriver() then Failure(NotADriver)
    else if dateTimeText == "" || finalAddress == "" || !Truthy(allowedSpaces) then Failure(MissingFields)
    else if parsed.None? then Failure(BadDateFormat)
    else Success(NewRide(nextId, parsed.value, finalAddress, allowedSpaces.value, users[driverAlias]))
  }

  function JoinStep(users: map<string, User>, rides: map<int, Ride>, driverAlias: string, rideId: int,
                    participantAlias: string, destination: string, occupiedSpaces: Option<int>): Result<Ride>
  {
    if driverAlias !in users then Failure(UserNotFound(driverAlias))
    else if participantAlias !in users then Failure(UserNotFound(participantAlias))
    else match DriversRide(users, rides, driverAlias, rideId)
      case Failure(e) => Failure(e)
      case Success(ride) => Join(ride, users[participantAlias], destination, occupiedSpaces)
  }

  function AcceptStep(users: map<string, User>, rides: map<int, Ride>, driverAlias: string, rideId: int,
                      participantAlias: string, now: Moment): Result<Ride>
  {
    match DriversRide(users, rides, driverAlias, rideId)
    case Failure(e) => Failure(e)
    case Success(ride) => Accept(ride, participantAlias, now)
  }

  function RejectStep(users: map<string, User>, rides: map<int, Ride>, driverAlias: string, rideId: int,
                      participantAlias: string): Result<Ride>
  {
    match DriversRide(users, rides, driverAlias, rideId)
    case Failure(e) => Failure(e)
    case Success(ride) => Reject(ride, participantAlias)
  }

  function StartStep(users: map<string, User>, rides: map<int, Ride>, driverAlias: string, rideId: int,
                     present: set<string>): Result<Ride>
  {
    match DriversRide(users, rides, driverAlias, rideId)
    case Failure(e) => Failure(e)
    case Success(ride) => Start(ride, present)
  }

  function EndStep(users: map<string, User>, rides: map<int, Ride>, driverAlias: string, rideId: int): Result<Ride>
  {
    match DriversRide(users, rides, driverAlias, rideId)
    case Failure(e) => Failure(e)
    case Success(ride) => End(ride)
  }

  /** Unload is the participant's own request: no driver and no ownership check. */
  function UnloadStep(users: map<string, User>, rides: map<int, Ride>, participantAlias: string, rideId: int): Result<Ride>
  {
    if participantAlias !in users then Failure(UserNotFound(participantAlias))
    else if rideId !in rides then Failure(RideNotFound(rideId))
    else Unload(rides[rideId], participantAlias)
  }

  // ---------------------------------------------------------------------------
  // The loops of the endpoints

  /** The first-match search over a ride's participations. */
  method FindParticipation(ps: seq<Participation>, alias: string) returns (found: Option<nat>)
    ensures found == FirstIndex(ps, alias)
  {
    var i := 0;
    while i < |ps|
      invariant 0 <= i <= |ps|
      invariant forall j :: 0 <= j < i ==> ps[j].participant.alias != alias
    {
      if ps[i].participant.alias == alias {
        return Some(i);
      }
      i := i + 1;
    }
    return None;
  }

  /** Start's check that every request has been answered. */
  method AllResolved(ps: seq<Participation>) returns (ok: bool)
    ensures ok <==> forall i :: 0 <= i < |ps| ==> Resolved(ps[i])
  {
    var i := 0;
    while i < |ps|
      invariant 0 <= i <= |ps|
      invariant forall j :: 0 <= j < i ==> Resolved(ps[j])
    {
      if !Resolved(ps[i]) {
        return false;
      }
      i := i + 1;
    }
    return true;
  }

  /** Start's roll call, one participation at a time. */
  method BoardAll(ps: seq<Participation>, present: set<string>) returns (qs: seq<Participation>)
    ensures qs == RollCall(ps, present)
  {
    qs := ps;
    var i := 0;
    while i < |qs|
      invariant 0 <= i <= |qs| == |ps|
      invariant forall j :: 0 <= j < i ==> qs[j] == Board(ps[j], present)
      invariant forall j :: i <= j < |qs| ==> qs[j] == ps[j]
    {
      if qs[i].status == Confirmed {
        if qs[i].participant.alias in present {
          qs := qs[i := qs[i].(status := ParticipationStatus.InProgress)];
        } else {
          qs := qs[i := qs[i].(status := Missing)];
        }
      }
      i := i + 1;
    }
  }

  /** End's sweep over the riders still on board. */
  method CloseAll(ps: seq<Participation>) returns (qs: seq<Participation>)
    ensures qs == Sweep(ps)
  {
    qs := ps;
    var i := 0;
    while i < |qs|
      invariant 0 <= i <= |qs| == |ps|
      invariant forall j :: 0 <= j < i ==> qs[j] == Close(ps[j])
      invariant forall j :: i <= j < |qs| ==> qs[j] == ps[j]
    {
      if qs[i].status == ParticipationStatus.InProgress {
        qs := qs[i := qs[i].(status := NotMarked)];
      }
      i := i + 1;
    }
  }

  // ---------------------------------------------------------------------------
  // Endpoints

  /** `create_usuario`: registers a new alias. */
  method CreateUser(store: DataHandler, alias: string, name: string, carPlate: Option<string>) returns (r: Result<User>)
    requires store.Valid()
    modifies store
    ensures store.Valid()
    ensures alias == "" || name == "" ==> r == Failure(MissingFields)
    ensures alias != "" && name != "" && alias in old(store.users) ==> r == Failure(AliasTaken)
    ensures r.Success? <==> alias != "" && name != "" && alias !in old(store.users)
    ensures r.Success? ==> r.value == User(alias, name, carPlate) && store.users == old(store.users)[alias := r.value]
    ensures r.Failure? ==> store.users == old(store.users)
    ensures store.rides == old(store.rides) && store.nextRideId == old(store.nextRideId)
  {
    if alias == "" || name == "" {
      return Failure(MissingFields);
    }
    if store.GetUser(alias).Some? {
      return Failure(AliasTaken);
    }
    var user := User(alias, name, carPlate);
    store.AddUser(user);
    r := Success(user);
  }

  /** `create_ride`: a driver publishes a ride. `parsed` is what parsing
      `dateTimeText` in the pattern YYYY/MM/DD HH:MM gives, None when it does
      not parse. */
  method CreateRide(store: DataHandler, driverAlias: string, dateTimeText: string, parsed: Option<Moment>,
                    finalAddress: string, allowedSpaces: Option<int>) returns (r: Result<Ride>)
    requires store.Valid()
    modifies store
    ensures store.Valid()
    ensures driverAlias !in old(store.users) ==> r == Failure(UserNotFound(driverAlias))
    ensures driverAlias in old(store.users) && !old(store.users)[driverAlias].IsDriver() ==> r == Failure(NotADriver)
    ensures (&& driverAlias in old(store.users) && old(store.users)[driverAlias].IsDriver()
             && (dateTimeText == "" || finalAddress == "" || !Truthy(allowedSpaces)))
            ==> r == Failure(MissingFields)
    ensures r.Success? <==>
      && driverAlias in old(store.users) && old(store.users)[driverAlias].IsDriver()
      && dateTimeText != "" && finalAddress != "" && Truthy(allowedSpaces)
      && parsed.Some?
    ensures (&& driverAlias in old(store.users) && old(store.users)[driverAlias].IsDriver()
             && dateTimeText != "" && finalAddress != "" && Truthy(allowedSpaces) && parsed.None?)
            ==> r == Failure(BadDateFormat)
    ensures r.Success? ==>
      && r.value == NewRide(old(store.nextRideId), parsed.value, finalAddress, allowedSpaces.value, old(store.users)[driverAlias])
      && r.value.driver.IsDriver()
      && store.rides == old(store.rides)[old(store.nextRideId) := r.value]
      && store.nextRideId == old(store.nextRideId) + 1
    ensures r.Failure? ==> store.rides == old(store.rides) && store.nextRideId == old(store.nextRideId)
    ensures r == CreateStep(old(store.users), old(store.nextRideId), driverAlias, dateTimeText, parsed, finalAddress, allowedSpaces)
    ensures store.rides == Commit(old(store.rides), old(store.nextRideId), r)
    ensures store.users == old(store.users)
  {
    var driver := store.GetUser(driverAlias);
    if driver.None? {
      return Failure(UserNotFound(driverAlias));
    }
    if !driver.value.IsDriver() {
      return Failure(NotADriver);
    }
    if dateTimeText == "" || finalAddress == "" || !Truthy(allowedSpaces) {
      return Failure(MissingFields);
    }
    if parsed.None? {
      return Failure(BadDateFormat);
    }
    var ride := store.CreateRide(parsed.value, finalAddress, allowedSpaces.value, driver.value);
    r := Success(ride);
  }

  /** `request_to_join_ride`. */
  method RequestToJoinRide(store: DataHandler, driverAlias: string, rideId: int, participantAlias: string,
                           destination: string, occupiedSpaces: Option<int>) returns (r: Result<()>)
    requires store.Valid()
    modifies store
    ensures store.Valid()
    ensures var step := JoinStep(old(store.users), old(store.rides), driverAlias, rideId, participantAlias,
                                 destination, occupiedSpaces);
      r == Reply(step) && store.rides == Commit(old(store.rides), rideId, step)
    ensures store.users == old(store.users) && store.nextRideId == old(store.nextRideId)
  {
    var driver := store.GetUser(driverAlias);
    if driver.None? {
      return Failure(UserNotFound(driverAlias));
    }
    var participant := store.GetUser(participantAlias);
    if participant.None? {
      return Failure(UserNotFound(participantAlias));
    }
    var found := store.GetRide(rideId);
    if found.None? {
      return Failure(RideNotFound(rideId));
    }
    var ride := found.value;
    if ride.driver.alias != driverAlias {
      return Failure(NotRideOwner);
    }
    if ride.status != Ready {
      return Failure(WrongRideStatus);
    }
    var earlier := FindParticipation(ride.participations, participantAlias);
    if earlier.Some? {
      return Failure(AlreadyRequested);
    }
    if destination == "" || !Truthy(occupiedSpaces) {
      return Failure(MissingFields);
    }
    if occupiedSpaces.value > AvailableSpaces(ride) {
      return Failure(NotEnoughSpaces(AvailableSpaces(ride)));
    }
    var p := NewParticipation(participant.value, rideId, destination, occupiedSpaces.value);
    JoinKeepsRideOk(rideId, ride, participant.value, destination, occupiedSpaces);
    store.rides := store.rides[rideId := ride.(participations := ride.participations + [p])];
    r := Success(());
  }

  /** `accept_participant`. */
  method AcceptParticipant(store: DataHandler, driverAlias: string, rideId: int, participantAlias: string,
                           now: Moment) returns (r: Result<()>)
    requires store.Valid()
    modifies store
    ensures store.Valid()
    ensures var step := AcceptStep(old(store.users), old(store.rides), driverAlias, rideId, participantAlias, now);
      r == Reply(step) && store.rides == Commit(old(store.rides), rideId, step)
    ensures store.users == old(store.users) && store.nextRideId == old(store.nextRideId)
  {
    var driver := store.GetUser(driverAlias);
    if driver.None? {
      return Failure(UserNotFound(driverAlias));
    }
    var found := store.GetRide(rideId);
    if found.None? {
      return Failure(RideNotFound(rideId));
    }
    var ride := found.value;
    if ride.driver.alias != driverAlias {
      return Failure(NotRideOwner);
    }
    if ride.status != Ready {
      return Failure(WrongRideStatus);
    }
    var ps := ride.participations;
    var i := FindParticipation(ps, participantAlias);
    if i.None? {
      return Failure(ParticipationNotFound);
    }
    var p := ps[i.value];
    if p.status != Waiting {
      return Failure(WrongParticipationStatus);
    }
    if p.occupiedSpaces > AvailableSpaces(ride) {
      return Failure(NotEnoughSpaces(AvailableSpaces(ride)));
    }
    AcceptKeepsRideOk(rideId, ride, participantAlias, now);
    store.rides := store.rides[rideId := ride.(participations := ps[i.value := p.(status := Confirmed, confirmation := Some(now))])];
    r := Success(());
  }

  /** `reject_participant`. */
  method RejectParticipant(store: DataHandler, driverAlias: string, rideId: int, participantAlias: string)
    returns (r: Result<()>)
    requires store.Valid()
    modifies store
    ensures store.Valid()
    ensures var step := RejectStep(old(store.users), old(store.rides), driverAlias, rideId, participantAlias);
      r == Reply(step) && store.rides == Commit(old(store.rides), rideId, step)
    ensures store.users == old(store.users) && store.nextRideId == old(store.nextRideId)
  {
    var driver := store.GetUser(driverAlias);
    if driver.None? {
      return Failure(UserNotFound(driverAlias));
    }
    var found := store.GetRide(rideId);
    if found.None? {
      return Failure(RideNotFound(rideId));
    }
    var ride := found.value;
    if ride.driver.alias != driverAlias {
      return Failure(NotRideOwner);
    }
    if ride.status != Ready {
      return Failure(WrongRideStatus);
    }
    var ps := ride.participations;
    var i := FindParticipation(ps, participantAlias);
    if i.None? {
      return Failure(ParticipationNotFound);
    }
    var p := ps[i.value];
    if p.status != Waiting {
      return Failure(WrongParticipationStatus);
    }
    RejectKeepsRideOk(rideId, ride, participantAlias);
    store.rides := store.rides[rideId := ride.(participations := ps[i.value := p.(status := Rejected)])];
    r := Success(());
  }

  /** `start_ride`: `present` holds the aliases announced as present. */
  method StartRide(store: DataHandler, driverAlias: string, rideId: int, present: set<string>) returns (r: Result<()>)
    requires store.Valid()
    modifies store
    ensures store.Valid()
    ensures var step := StartStep(old(store.users), old(store.rides), driverAlias, rideId, present);
      r == Reply(step) && store.rides == Commit(old(store.rides), rideId, step)
    ensures store.users == old(store.users) && store.nextRideId == old(store.nextRideId)
  {
    var driver := store.GetUser(driverAlias);
    if driver.None? {
      return Failure(UserNotFound(driverAlias));
    }
    var found := store.GetRide(rideId);
    if found.None? {
      return Failure(RideNotFound(rideId));
    }
    var ride := found.value;
    if ride.driver.alias != driverAlias {
      return Failure(NotRideOwner);
    }
    if ride.status != Ready {
      return Failure(WrongRideStatus);
    }
    var resolved := AllResolved(ride.participations);
    if !resolved {
      return Failure(UnresolvedRequests);
    }
    var ps := BoardAll(ride.participations, present);
    StartKeepsRideOk(rideId, ride, present);
    store.rides := store.rides[rideId := ride.(status := RideStatus.InProgress, participations := ps)];
    r := Success(());
  }

  /** `end_ride`. */
  method EndRide(store: DataHandler, driverAlias: string, rideId: int) returns (r: Result<()>)
    requires store.Valid()
    modifies store
    ensures store.Valid()
    ensures var step := EndStep(old(store.users), old(store.rides), driverAlias, rideId);
      r == Reply(step) && store.rides == Commit(old(store.rides), rideId, step)
    ensures store.users == old(store.users) && store.nextRideId == old(store.nextRideId)
  {
    var driver := store.GetUser(driverAlias);
    if driver.None? {
      return Failure(UserNotFound(driverAlias));
    }
    var found := store.GetRide(rideId);
    if found.None? {
      return Failure(RideNotFound(rideId));
    }
    var ride := found.value;
    if ride.driver.alias != driverAlias {
      return Failure(NotRideOwner);
    }
    if ride.status != RideStatus.InProgress {
      return Failure(WrongRideStatus);
    }
    var ps := CloseAll(ride.participations);
    EndKeepsRideOk(rideId, ride);
    store.rides := store.rides[rideId := ride.(status := Finished, participations := ps)];
    r := Success(());
  }

  /** `unload_participant`: the participant gets off. */
  method UnloadParticipant(store: DataHandler, participantAlias: string, rideId: int) returns (r: Result<()>)
    requires store.Valid()
    modifies store
    ensures store.Valid()
    ensures var step := UnloadStep(old(store.users), old(store.rides), participantAlias, rideId);
      r == Reply(step) && store.rides == Commit(old(store.rides), rideId, step)
    ensures store.users == old(store.users) && store.nextRideId == old(store.nextRideId)
  {
    var participant := store.GetUser(participantAlias);
    if participant.None? {
      return Failure(UserNotFound(participantAlias));
    }
    var found := store.GetRide(rideId);
    if found.None? {
      return Failure(RideNotFound(rideId));
    }
    var ride := found.value;
    if ride.status != RideStatus.InProgress {
      return Failure(WrongRideStatus);
    }
    var ps := ride.participations;
    var i := FindParticipation(ps, participantAlias);
    if i.None? {
      return Failure(ParticipationNotFound);
    }
    var p := ps[i.value];
    if p.status != ParticipationStatus.InProgress {
      return Failure(WrongParticipationStatus);
    }
    UnloadKeepsRideOk(rideId, ride, participantAlias);
    store.rides := store.rides[rideId := ride.(participations := ps[i.value := p.(status := Completed)])];
    r := Success(());
  }
  // ---------------------------------------------------------------------------
  // Properties of the steps over the whole store

  /** Only the driver who owns a ride changes it through the driver endpoints,
      and a join also needs both aliases registered. */
  lemma OnlyTheOwnerChangesARide(users: map<string, User>, rides: map<int, Ride>, driverAlias: string, rideId: int,
                                 participantAlias: string, destination: string, occupiedSpaces: Option<int>,
                                 now: Moment, present: set<string>)
    ensures JoinStep(users, rides, driverAlias, rideId, participantAlias, destination, occupiedSpaces).Success? ==>
      && driverAlias in users && participantAlias in users
      && rideId in rides && rides[rideId].driver.alias == driverAlias
    ensures AcceptStep(users, rides, driverAlias, rideId, participantAlias, now).Success? ==>
      driverAlias in users && rideId in rides && rides[rideId].driver.alias == driverAlias
    ensures RejectStep(users, rides, driverAlias, rideId, participantAlias).Success? ==>
      driverAlias in users && rideId in rides && rides[rideId].driver.alias == driverAlias
    ensures StartStep(users, rides, driverAlias, rideId, present).Success? ==>
      driverAlias in users && rideId in rides && rides[rideId].driver.alias == driverAlias
    ensures EndStep(users, rides, driverAlias, rideId).Success? ==>
      driverAlias in users && rideId in rides && rides[rideId].driver.alias == driverAlias
    ensures UnloadStep(users, rides, participantAlias, rideId).Success? ==>
      participantAlias in users && rideId in rides
  {
  }

  /** Every ride in the store has sound seat accounting. */
  predicate AllSeatsSound(rides: map<int, Ride>)
  {
    forall id :: id in rides ==> SeatsSound(rides[id])
  }

  /** A step that only ever touches one ride keeps every ride's seat
      accounting sound when it keeps that one ride's. */
  lemma CommitKeepsSeatsSound(rides: map<int, Ride>, id: int, step: Result<Ride>)
    requires AllSeatsSound(rides)
    requires step.Success? ==> SeatsSound(step.value)
    ensures AllSeatsSound(Commit(rides, id, step))
  {
  }

  /** A ride published with a non-negative capacity starts with no
      participations, so it is sound, and the other rides are untouched. */
  lemma CreateKeepsSeatsSound(users: map<string, User>, rides: map<int, Ride>, nextId: int, driverAlias: string,
                              dateTimeText: string, parsed: Option<Moment>, finalAddress: string, allowedSpaces: Option<int>)
    requires AllSeatsSound(rides)
    requires allowedSpaces.Some? && allowedSpaces.value >= 0
    ensures AllSeatsSound(Commit(rides, nextId, CreateStep(users, nextId, driverAlias, dateTimeText, parsed, finalAddress, allowedSpaces)))
  {
    assert Occupied([]) == 0;
    CommitKeepsSeatsSound(rides, nextId, CreateStep(users, nextId, driverAlias, dateTimeText, parsed, finalAddress, allowedSpaces));
  }

  /** As long as nobody offers or asks for a negative number of seats, no
      endpoint ever leaves a ride of the store with its seats overbooked. */
  lemma StepsKeepSeatsSound(users: map<string, User>, rides: map<int, Ride>, driverAlias: string, rideId: int,
                            participantAlias: string, destination: string, occupiedSpaces: Option<int>,
                            now: Moment, present: set<string>, nextId: int, dateTimeText: string,
                            parsed: Option<Moment>, finalAddress: string, allowedSpaces: Option<int>)
    requires AllSeatsSound(rides)
    ensures allowedSpaces.Some? && allowedSpaces.value >= 0 ==>
      AllSeatsSound(Commit(rides, nextId, CreateStep(users, nextId, driverAlias, dateTimeText, parsed, finalAddress, allowedSpaces)))
    ensures occupiedSpaces.Some? && occupiedSpaces.value >= 0 ==>
      AllSeatsSound(Commit(rides, rideId, JoinStep(users, rides, driverAlias, rideId, participantAlias, destination, occupiedSpaces)))
    ensures AllSeatsSound(Commit(rides, rideId, AcceptStep(users, rides, driverAlias, rideId, participantAlias, now)))
    ensures AllSeatsSound(Commit(rides, rideId, RejectStep(users, rides, driverAlias, rideId, participantAlias)))
    ensures AllSeatsSound(Commit(rides, rideId, StartStep(users, rides, driverAlias, rideId, present)))
    ensures AllSeatsSound(Commit(rides, rideId, EndStep(users, rides, driverAlias, rideId)))
    ensures AllSeatsSound(Commit(rides, rideId, UnloadStep(users, rides, participantAlias, rideId)))
  {
    if rideId in rides {
      var ride := rides[rideId];
      if participantAlias in users {
        JoinKeepsCapacity(ride, users[participantAlias], destination, occupiedSpaces);
      }
      AcceptKeepsCapacity(ride, participantAlias, now);
      RejectKeepsCapacity(ride, participantAlias);
      StartKeepsCapacity(ride, present);
      EndKeepsCapacity(ride);
      UnloadKeepsCapacity(ride, participantAlias);
    }
    if allowedSpaces.Some? && allowedSpaces.value >= 0 {
      CreateKeepsSeatsSound(users, rides, nextId, driverAlias, dateTimeText, parsed, finalAddress, allowedSpaces);
    }
    if occupiedSpaces.Some? && occupiedSpaces.value >= 0 {
      CommitKeepsSeatsSound(rides, rideId, JoinStep(users, rides, driverAlias, rideId, participantAlias, destination, occupiedSpaces));
    }
    CommitKeepsSeatsSound(rides, rideId, AcceptStep(users, rides, driverAlias, rideId, participantAlias, now));
    CommitKeepsSeatsSound(rides, rideId, RejectStep(users, rides, driverAlias, rideId, participantAlias));
    CommitKeepsSeatsSound(rides, rideId, StartStep(users, rides, driverAlias, rideId, present));
    CommitKeepsSeatsSound(rides, rideId, EndStep(users, rides, driverAlias, rideId));
    CommitKeepsSeatsSound(rides, rideId, UnloadStep(users, rides, participantAlias, rideId));
  }

  // ---------------------------------------------------------------------------
  // Scenarios

  /** A fresh store numbers the rides it is asked to create 1, 2, 3. */
  method SequentialIds(driver: User, when: Moment) returns (first: int, second: int, third: int)
    ensures first == 1 && second == 2 && third == 3
  {
    var store := new DataHandler();
    var r1 := store.CreateRide(when, "Av Javier Prado 456", 2, driver);
    var r2 := store.CreateRide(when, "Av Arequipa 1200", 3, driver);
    var r3 := store.CreateRide(when, "Jr de la Union 12", 1, driver);
    first, second, third := r1.id, r2.id, r3.id;
  }

  /** The code accepts a negative capacity: it only refuses a missing or zero
      one, so a ride with -1 seats is published with -1 free seats. */
  method NegativeCapacityAccepted(when: Moment) returns (r: Result<Ride>)
    ensures r.Success? && AvailableSpaces(r.value) == -1
  {
    var store := new DataHandler();
    var d := CreateUser(store, "jperez", "Juan Perez", Some("ABC-123"));
    r := CreateRide(store, "jperez", "2025/07/15 22:00", Some(when), "Av Javier Prado 456", Some(-1));
    assert Occupied([]) == 0;
  }
  // The cast of the walk-through below.
  function Driver(): User { User("jperez", "Juan Perez", Some("ABC-123")) }
  function Rider(): User { User("laura", "Laura Gomez", None) }
  function Latecomer(): User { User("mquispe", "Mario Quispe", None) }
  function Cast(): map<string, User> { map["jperez" := Driver(), "laura" := Rider(), "mquispe" := Latecomer()] }

  function Request(): Participation { NewParticipation(Rider(), 1, "Av Aramburu 245", 1) }
  function Offer(when: Moment): Ride { NewRide(1, when, "Av Javier Prado 456", 2, Driver()) }

  /** Registration of the cast and publication of a two-seat ride. */
  method Publish(when: Moment) returns (store: DataHandler)
    ensures fresh(store) && store.Valid()
    ensures store.users == Cast() && store.rides == map[1 := Offer(when)] && store.nextRideId == 2
  {
    store := new DataHandler();
    var d := CreateUser(store, "jperez", "Juan Perez", Some("ABC-123"));
    var p := CreateUser(store, "laura", "Laura Gomez", None);
    var q := CreateUser(store, "mquispe", "Mario Quispe", None);
    assert store.users == Cast();
    var ride := CreateRide(store, "jperez", "2025/07/15 22:00", Some(when), "Av Javier Prado 456", Some(2));
  }

  // The rider's participation once the driver has accepted it.
  function Accepted(now: Moment): Participation { Request().(status := Confirmed, confirmation := Some(now)) }

  /** The rider asks for one seat on the published ride and is put on its
      waiting list. */
  method Ask(store: DataHandler, when: Moment)
    requires store.Valid()
    requires store.users == Cast() && store.rides == map[1 := Offer(when)] && store.nextRideId == 2
    modifies store
    ensures store.Valid()
    ensures store.users == Cast() && store.nextRideId == 2
    ensures store.rides == map[1 := Offer(when).(participations := [Request()])]
  {
    assert Occupied([]) == 0;
    var joined := RequestToJoinRide(store, "jperez", 1, "laura", "Av Aramburu 245", Some(1));
    assert [] + [Request()] == [Request()];
  }

  /** The rider's request for one seat is accepted, which leaves one seat. */
  method Admit(store: DataHandler, when: Moment, now: Moment) returns (seatsAfterAccept: int)
    requires store.Valid()
    requires store.users == Cast() && store.rides == map[1 := Offer(when)] && store.nextRideId == 2
    modifies store
    ensures store.Valid()
    ensures seatsAfterAccept == 1
    ensures store.users == Cast() && store.nextRideId == 2
    ensures store.rides == map[1 := Offer(when).(participations := [Accepted(now)])]
  {
    Ask(store, when);
    assert Occupied([]) == 0;
    assert FirstIndex([Request()], "laura") == Some(0);
    var accepted := AcceptParticipant(store, "jperez", 1, "laura", now);
    assert store.rides[1].participations == [Accepted(now)];
    OccupiedAppend([], Accepted(now));
    assert [] + [Accepted(now)] == [Accepted(now)];
    seatsAfterAccept := AvailableSpaces(store.rides[1]);
  }

  /** With one free seat left, the latecomer's request for three is refused
      and names that one seat; nothing changes. */
  method Overflow(store: DataHandler, when: Moment, now: Moment) returns (refused: Result<()>)
    requires store.Valid()
    requires store.users == Cast() && store.nextRideId == 2
    requires store.rides == map[1 := Offer(when).(participations := [Accepted(now)])]
    modifies store
    ensures store.Valid()
    ensures refused == Failure(NotEnoughSpaces(1))
    ensures store.users == Cast() && store.nextRideId == 2
    ensures store.rides == map[1 := Offer(when).(participations := [Accepted(now)])]
  {
    OccupiedAppend([], Accepted(now));
    assert [] + [Accepted(now)] == [Accepted(now)];
    assert Occupied([]) == 0;
    assert AvailableSpaces(store.rides[1]) == 1;
    assert !HasAlias(store.rides[1].participations, "mquispe");
    refused := RequestToJoinRide(store, "jperez", 1, "mquispe", "Av Brasil 300", Some(3));
  }

  /** The rider's request for one seat is accepted, which leaves one seat; the
      latecomer's request for three is then refused with that one free seat. */
  method Fill(store: DataHandler, when: Moment, now: Moment) returns (seatsAfterAccept: int, refused: Result<()>)
    requires store.Valid()
    requires store.users == Cast() && store.rides == map[1 := Offer(when)] && store.nextRideId == 2
    modifies store
    ensures store.Valid()
    ensures seatsAfterAccept == 1
    ensures refused == Failure(NotEnoughSpaces(1))
    ensures store.users == Cast() && store.nextRideId == 2
    ensures store.rides == map[1 := Offer(when).(participations := [Accepted(now)])]
  {
    seatsAfterAccept := Admit(store, when, now);
    refused := Overflow(store, when, now);
  }

  /** The rider is present at the start and is never unloaded, so the end
      marks the ride not-marked for them, and their statistics say so. */
  method Finish(store: DataHandler, when: Moment, now: Moment) returns (stats: Counts)
    requires store.Valid()
    requires store.users == Cast() && store.nextRideId == 2
    requires store.rides == map[1 := Offer(when).(participations := [Accepted(now)])]
    modifies store
    ensures stats == Counts(1, 0, 0, 1, 0)
  {
    var confirmed := Accepted(now);
    var started := StartRide(store, "jperez", 1, {"laura"});
    var boarded := confirmed.(status := ParticipationStatus.InProgress);
    assert RollCall([confirmed], {"laura"}) == [boarded];
    assert store.rides[1].participations == [boarded];
    var ended := EndRide(store, "jperez", 1);
    var unmarked := boarded.(status := NotMarked);
    assert Sweep([boarded]) == [unmarked];
    ghost var last := store.rides[1];
    assert last.participations == [unmarked];
    stats := store.GetUserRideStats("laura");
    TallyOfOne(last.participations, "laura");
    assert Tally(last.participations, "laura") == Counts(1, 0, 0, 1, 0);
  }

  /** A whole ride through the endpoints: a driver with a plate offers two
      seats; a rider asks for one and is accepted, which leaves one seat; a
      request for three more is refused with the one free seat; the rider
      boards at the start and, never unloaded, is not-marked at the end, which
      is what the rider's statistics then show. */
  method WholeRide(when: Moment, now: Moment) returns (seatsAfterAccept: int, refused: Result<()>, stats: Counts)
    ensures seatsAfterAccept == 1
    ensures refused == Failure(NotEnoughSpaces(1))
    ensures stats == Counts(1, 0, 0, 1, 0)
  {
    var store := Publish(when);
    seatsAfterAccept, refused := Fill(store, when, now);
    stats := Finish(store, when, now);
  }
}

