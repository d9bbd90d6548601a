/**
  The store (`DataHandler`): users by alias, rides by id, and the counter that
  numbers new rides. One store object is created and handed to every endpoint;
  there is no global instance.
*/
module Store {
  import opened Domain
  import opened Stats

  /** The rides with ids 1 .. n - 1 that satisfy `keep`, in id order (the
      insertion order of the source's dictionary). */
  function RidesWhere(rides: map<int, Ride>, n: int, keep: Ride -> bool): (r: seq<Ride>)
    requires forall id :: 1 <= id < n ==> id in rides && rides[id].id == id
    ensures forall x :: x in r ==> keep(x) && 1 <= x.id < n && x == rides[x.id]
    ensures forall id :: 1 <= id < n && keep(rides[id]) ==> rides[id] in r
    ensures forall j, k :: 0 <= j < k < |r| ==> r[j].id < r[k].id
    decreases n
  {
    if n <= 1 then []
    else RidesWhere(rides, n - 1, keep) + (if keep(rides[n - 1]) then [rides[n - 1]] else [])
  }

  /** One step of the inner loop of `get_user_ride_stats`: a participation of
      `alias` adds one to the total and one to the count of its status. */
  method CountParticipation(p: Participation, alias: string, before: Counts) returns (stats: Counts)
    ensures stats == Plus(before, CountOne(p, alias))
  {
    stats := before;
    if p.participant.alias == alias {
      stats := stats.(total := stats.total + 1);
      if p.status == Completed {
        stats := stats.(completed := stats.completed + 1);
      } else if p.status == Missing {
        stats := stats.(missing := stats.missing + 1);
      } else if p.status == NotMarked {
        stats := stats.(notMarked := stats.notMarked + 1);
      } else if p.status == Rejected {
        stats := stats.(rejected := stats.rejected + 1);
      }
    }
  }

  /** The inner loop of `get_user_ride_stats`: adds one ride's participations
      of `alias` to the running counts. */
  method CountInRide(ps: seq<Participation>, alias: string, start: Counts) returns (stats: Counts)
    ensures stats == Plus(start, Tally(ps, alias))
  {
    stats := start;
    var j := 0;
    while j < |ps|
      invariant 0 <= j <= |ps|
      invariant stats == Plus(start, Tally(ps[..j], alias))
    {
      TallyStep(ps, j, alias);
      PlusAssoc(start, Tally(ps[..j], alias), CountOne(ps[j], alias));
      stats := CountParticipation(ps[j], alias, stats);
      j := j + 1;
    }
    assert ps[..|ps|] == ps;
  }

  /** The outer loop of `get_user_ride_stats`: every ride, in id order. */
  method CountInRides(rides: map<int, Ride>, n: int, alias: string) returns (stats: Counts)
    requires n >= 1 && forall k :: 1 <= k < n ==> k in rides
    ensures stats == TallyRides(rides, n, alias)
  {
    stats := Counts(0, 0, 0, 0, 0);
    var id := 1;
    while id < n
      invariant 1 <= id <= n
      invariant stats == TallyRides(rides, id, alias)
    {
      stats := CountInRide(rides[id].participations, alias, stats);
      id := id + 1;
    }
  }

  class DataHandler {
    var users: map<string, User>
    var rides: map<int, Ride>
    var nextRideId: int

    /** Users are filed under their own alias; rides are numbered 1, 2, ...
        without gaps up to the counter, each filed under its own id. */
    ghost predicate Valid()
      reads this
    {
      && nextRideId >= 1
      && (forall a :: a in users ==> users[a].alias == a)
      && (forall id :: id in rides <==> 1 <= id < nextRideId)
      && (forall id :: id in rides ==> RideOk(id, rides[id]))
    }

    constructor ()
      ensures Valid()
      ensures users == map[] && rides == map[] && nextRideId == 1
    {
      users := map[];
      rides := map[];
      nextRideId := 1;
    }

    /** `add_user`: files the user under its alias, replacing any user there. */
    method AddUser(user: User)
      requires Valid()
      modifies this
      ensures Valid()
      ensures users == old(users)[user.alias := user]
      ensures rides == old(rides) && nextRideId == old(nextRideId)
    {
      users := users[user.alias := user];
    }

    function GetUser(alias: string): (r: Option<User>)
      reads this
      requires Valid()
      ensures r.Some? <==> alias in users
      ensures r.Some? ==> r.value == users[alias] && r.value.alias == alias
    {
      if alias in users then Some(users[alias]) else None
    }

    /** `create_ride`: a ready, empty ride under the next id. The store itself
        does not check that `driver` is a driver; the endpoint does. */
    method CreateRide(dateTime: Moment, finalAddress: string, allowedSpaces: int, driver: User) returns (ride: Ride)
      requires Valid()
      modifies this
      ensures Valid()
      ensures ride == NewRide(old(nextRideId), dateTime, finalAddress, allowedSpaces, driver)
      ensures !(old(nextRideId) in old(rides))
      ensures rides == old(rides)[old(nextRideId) := ride]
      ensures nextRideId == old(nextRideId) + 1
      ensures users == old(users)
    {
      ride := NewRide(nextRideId, dateTime, finalAddress, allowedSpaces, driver);
      rides := rides[ride.id := ride];
      nextRideId := nextRideId + 1;
    }

    function GetRide(id: int): (r: Option<Ride>)
      reads this
      requires Valid()
      ensures r.Some? <==> 1 <= id < nextRideId
      ensures r.Some? ==> r.value == rides[id] && r.value.id == id
    {
      if id in rides then Some(rides[id]) else None
    }

    /** `get_user_rides`: the rides the alias drives, oldest first. */
    function GetUserRides(alias: string): (r: seq<Ride>)
      reads this
      requires Valid()
      ensures forall x :: x in r <==> x in rides.Values && x.driver.alias == alias
      ensures forall j, k :: 0 <= j < k < |r| ==> r[j].id < r[k].id
    {
      RidesWhere(rides, nextRideId, (x: Ride) => x.driver.alias == alias)
    }

    /** `get_active_rides`: the rides not yet finished, oldest first. */
    function GetActiveRides(): (r: seq<Ride>)
      reads this
      requires Valid()
      ensures forall x :: x in r <==> x in rides.Values && x.status != Finished
      ensures forall j, k :: 0 <= j < k < |r| ==> r[j].id < r[k].id
    {
      RidesWhere(rides, nextRideId, (x: Ride) => x.status != Finished)
    }

    /** `get_user_ride_stats`: counts the alias's participations in every ride,
        overall and by final status. */
    method GetUserRideStats(alias: string) returns (stats: Counts)
      requires Valid()
      ensures stats == TallyRides(rides, nextRideId, alias)
    {
      assert forall k :: 1 <= k < nextRideId ==> k in rides;
      stats := CountInRides(rides, nextRideId, alias);
    }
  }
}
