/**
  The statistics aggregator: a user's participation counts, by status, over
  every ride in the store.
*/
module Stats {
  import opened Domain
  import opened Lifecycle

  datatype Counts = Counts(total: int, completed: int, missing: int, notMarked: int, rejected: int)

  const Zero := Counts(0, 0, 0, 0, 0)

  function Plus(a: Counts, b: Counts): Counts
  {
    Counts(a.total + b.total, a.completed + b.completed, a.missing + b.missing,
           a.notMarked + b.notMarked, a.rejected + b.rejected)
  }

  function Indicator(b: bool): int { if b then 1 else 0 }

  /** What one participation adds to the counts of `alias`. */
  function CountOne(p: Participation, alias: string): Counts
  {
    if p.participant.alias != alias then Zero
    else Counts(1, Indicator(p.status == Completed), Indicator(p.status == Missing),
                Indicator(p.status == NotMarked), Indicator(p.status == Rejected))
  }

  /** The counts of `alias` over one participation list. */
  function Tally(ps: seq<Participation>, alias: string): Counts
    decreases |ps|
  {
    if ps == [] then Zero else Plus(Tally(ps[..|ps| - 1], alias), CountOne(ps[|ps| - 1], alias))
  }

  /** The counts of `alias` on the ride filed under `id`, if there is one. */
  function RideTally(rides: map<int, Ride>, id: int, alias: string): Counts
  {
    if id in rides then Tally(rides[id].participations, alias) else Zero
  }

  /** The counts of `alias` over the rides with ids 1 .. n - 1. */
  function TallyRides(rides: map<int, Ride>, n: int, alias: string): Counts
    decreases n
  {
    if n <= 1 then Zero else Plus(TallyRides(rides, n - 1, alias), RideTally(rides, n - 1, alias))
  }

  /** The participations of `alias` in a list, in order. */
  function Of(ps: seq<Participation>, alias: string): seq<Participation>
    decreases |ps|
  {
    if ps == [] then []
    else Of(ps[..|ps| - 1], alias) + (if ps[|ps| - 1].participant.alias == alias then [ps[|ps| - 1]] else [])
  }

  /** `total` is the number of participations of the alias, and each status
      count is the number of those that have that status. */
  lemma {:induction false} TallyCounts(ps: seq<Participation>, alias: string)
    ensures Tally(ps, alias).total == |Of(ps, alias)|
    ensures Tally(ps, alias).completed == multiset(StatusesOf(Of(ps, alias)))[Completed]
    ensures Tally(ps, alias).missing == multiset(StatusesOf(Of(ps, alias)))[Missing]
    ensures Tally(ps, alias).notMarked == multiset(StatusesOf(Of(ps, alias)))[NotMarked]
    ensures Tally(ps, alias).rejected == multiset(StatusesOf(Of(ps, alias)))[Rejected]
    decreases |ps|
  {
    if ps != [] {
      var n := |ps| - 1;
      TallyCounts(ps[..n], alias);
      var rest := Of(ps[..n], alias);
      if ps[n].participant.alias == alias {
        StatusesAppend(rest, ps[n]);
      } else {
        assert Of(ps, alias) == rest;
      }
    }
  }

  function StatusesOf(ps: seq<Participation>): seq<ParticipationStatus>
  {
    seq(|ps|, i requires 0 <= i < |ps| => ps[i].status)
  }

  lemma StatusesAppend(ps: seq<Participation>, p: Participation)
    ensures StatusesOf(ps + [p]) == StatusesOf(ps) + [p.status]
  {
  }

  function Classified(c: Counts): int
  {
    c.completed + c.missing + c.notMarked + c.rejected
  }

  /** At most one status count grows per participation, so the four of them
      never add up to more than the total. */
  lemma ClassifiedPlus(a: Counts, b: Counts)
    ensures Classified(Plus(a, b)) == Classified(a) + Classified(b)
    ensures Plus(a, b).total == a.total + b.total
  {
  }

  lemma {:induction false} TallyBound(ps: seq<Participation>, alias: string)
    ensures Classified(Tally(ps, alias)) <= Tally(ps, alias).total
    decreases |ps|
  {
    if ps != [] {
      var n := |ps| - 1;
      TallyBound(ps[..n], alias);
      ClassifiedPlus(Tally(ps[..n], alias), CountOne(ps[n], alias));
      assert Classified(CountOne(ps[n], alias)) <= CountOne(ps[n], alias).total;
    }
  }

  lemma {:induction false} TallyRidesBound(rides: map<int, Ride>, n: int, alias: string)
    ensures Classified(TallyRides(rides, n, alias)) <= TallyRides(rides, n, alias).total
    decreases n
  {
    if n > 1 {
      TallyRidesBound(rides, n - 1, alias);
      if n - 1 in rides {
        TallyBound(rides[n - 1].participations, alias);
      }
      ClassifiedPlus(TallyRides(rides, n - 1, alias), RideTally(rides, n - 1, alias));
    }
  }

  lemma PlusAssoc(a: Counts, b: Counts, c: Counts)
    ensures Plus(Plus(a, b), c) == Plus(a, Plus(b, c))
  {
  }

  lemma PlusZero(c: Counts)
    ensures Plus(Zero, c) == c
  {
  }

  lemma PlusSwap(a: Counts, b: Counts, c: Counts)
    ensures Plus(Plus(a, b), c) == Plus(Plus(a, c), b)
  {
  }

  /** Changing one participation changes the counts by what it contributes. */
  lemma {:induction false} TallyUpdate(ps: seq<Participation>, i: nat, q: Participation, alias: string)
    requires i < |ps|
    ensures Plus(Tally(ps[i := q], alias), CountOne(ps[i], alias)) == Plus(Tally(ps, alias), CountOne(q, alias))
    decreases |ps|
  {
    var n := |ps| - 1;
    if i == n {
      assert ps[i := q][..n] == ps[..n];
    } else {
      assert ps[i := q][..n] == ps[..n][i := q];
      var t', t := Tally(ps[..n][i := q], alias), Tally(ps[..n], alias);
      var last := CountOne(ps[n], alias);
      TallyUpdate(ps[..n], i, q, alias);
      calc {
        Plus(Tally(ps[i := q], alias), CountOne(ps[i], alias));
        Plus(Plus(t', last), CountOne(ps[i], alias));
        { PlusSwap(t', last, CountOne(ps[i], alias)); }
        Plus(Plus(t', CountOne(ps[i], alias)), last);
        Plus(Plus(t, CountOne(q, alias)), last);
        { PlusSwap(t, CountOne(q, alias), last); }
        Plus(Plus(t, last), CountOne(q, alias));
      }
    }
  }

  /** Replacing one ride changes the store-wide counts by what its list does. */
  lemma {:induction false} TallyRidesUpdate(rides: map<int, Ride>, n: int, id: int, r: Ride, alias: string)
    requires 1 <= id < n && id in rides
    ensures Plus(TallyRides(rides[id := r], n, alias), Tally(rides[id].participations, alias))
         == Plus(TallyRides(rides, n, alias), Tally(r.participations, alias))
    decreases n
  {
    var old' := Tally(rides[id].participations, alias);
    var new' := Tally(r.participations, alias);
    if n - 1 == id {
      var t := TallyRides(rides, n - 1, alias);
      TallyRidesFrame(rides, rides[id := r], n - 1, alias);
      assert TallyRides(rides[id := r], n, alias) == Plus(t, new');
      assert TallyRides(rides, n, alias) == Plus(t, old');
      PlusSwap(t, new', old');
    } else {
      var t', t := TallyRides(rides[id := r], n - 1, alias), TallyRides(rides, n - 1, alias);
      var last := RideTally(rides, n - 1, alias);
      assert RideTally(rides[id := r], n - 1, alias) == last;
      TallyRidesUpdate(rides, n - 1, id, r, alias);
      calc {
        Plus(TallyRides(rides[id := r], n, alias), old');
        Plus(Plus(t', last), old');
        { PlusSwap(t', last, old'); }
        Plus(Plus(t', old'), last);
        Plus(Plus(t, new'), last);
        { PlusSwap(t, new', last); }
        Plus(Plus(t, last), new');
      }
    }
  }

  lemma {:induction false} TallyRidesFrame(a: map<int, Ride>, b: map<int, Ride>, n: int, alias: string)
    requires forall k :: 1 <= k < n ==> (k in a <==> k in b) && (k in a ==> a[k] == b[k])
    ensures TallyRides(a, n, alias) == TallyRides(b, n, alias)
    decreases n
  {
    if n > 1 {
      TallyRidesFrame(a, b, n - 1, alias);
    }
  }

  /** A rider's counts after a successful join: one more in total and nothing
      else, and nobody else's counts move. */
  lemma JoinCountsOnce(rides: map<int, Ride>, n: int, id: int, u: User, destination: string,
                       seats: Option<int>, alias: string)
    requires 1 <= id < n && id in rides
    requires Join(rides[id], u, destination, seats).Success?
    ensures
      var before := TallyRides(rides, n, alias);
      var after := TallyRides(rides[id := Join(rides[id], u, destination, seats).value], n, alias);
      after == if alias == u.alias then before.(total := before.total + 1) else before
  {
    var ps := rides[id].participations;
    var ride := Join(rides[id], u, destination, seats).value;
    var p := NewParticipation(u, rides[id].id, destination, seats.value);
    assert ride.participations == ps + [p];
    var before, after := TallyRides(rides, n, alias), TallyRides(rides[id := ride], n, alias);
    var o, c := Tally(ps, alias), CountOne(p, alias);
    TallyRidesUpdate(rides, n, id, ride, alias);
    TallyAppend(ps, p, alias);
    assert Plus(after, o) == Plus(before, Plus(o, c));
    PlusAssoc(before, o, c);
    PlusSwap(before, o, c);
    PlusCancel(after, Plus(before, c), o);
    assert c == if alias == u.alias then Counts(1, 0, 0, 0, 0) else Zero;
  }

  lemma TallyAppend(ps: seq<Participation>, p: Participation, alias: string)
    ensures Tally(ps + [p], alias) == Plus(Tally(ps, alias), CountOne(p, alias))
  {
    assert (ps + [p])[..|ps|] == ps;
  }

  lemma PlusCancel(a: Counts, b: Counts, c: Counts)
    requires Plus(a, c) == Plus(b, c)
    ensures a == b
  {
  }

  /** Accepting a request moves nobody's counts: neither waiting nor confirmed
      is a counted status. */
  lemma AcceptKeepsCounts(rides: map<int, Ride>, n: int, id: int, a: string, now: Moment, alias: string)
    requires 1 <= id < n && id in rides
    requires Accept(rides[id], a, now).Success?
    ensures TallyRides(rides[id := Accept(rides[id], a, now).value], n, alias) == TallyRides(rides, n, alias)
  {
    var ps := rides[id].participations;
    var i := FirstIndex(ps, a).value;
    var ride := Accept(rides[id], a, now).value;
    TallyUpdate(ps, i, ps[i].(status := Confirmed, confirmation := Some(now)), alias);
    TallyRidesUpdate(rides, n, id, ride, alias);
  }

  lemma TallyStep(ps: seq<Participation>, k: nat, alias: string)
    requires k < |ps|
    ensures Tally(ps[..k + 1], alias) == Plus(Tally(ps[..k], alias), CountOne(ps[k], alias))
  {
    assert ps[..k + 1][..k] == ps[..k];
  }

  lemma TallyOfOne(ps: seq<Participation>, alias: string)
    requires |ps| == 1
    ensures Tally(ps, alias) == CountOne(ps[0], alias)
  {
    assert ps[..0] == [];
    PlusZero(CountOne(ps[0], alias));
  }

  /** Over the store: the alias rides ride 1 to completion, is rejected on
      ride 2 and still waits for an answer on ride 3, one participation on
      each; that makes a total of three with one completed and one rejected. */
  lemma ThreeRidesExample(rides: map<int, Ride>, alias: string)
    requires 1 in rides && 2 in rides && 3 in rides
    requires |rides[1].participations| == 1 && rides[1].participations[0].participant.alias == alias
    requires |rides[2].participations| == 1 && rides[2].participations[0].participant.alias == alias
    requires |rides[3].participations| == 1 && rides[3].participations[0].participant.alias == alias
    requires rides[1].status == Finished && rides[1].participations[0].status == Completed
    requires rides[2].status == RideStatus.InProgress && rides[2].participations[0].status == Rejected
    requires rides[3].status == Ready && rides[3].participations[0].status == Waiting
    ensures TallyRides(rides, 4, alias) == Counts(3, 1, 0, 0, 1)
  {
    RideOfOne(rides, 1, alias);
    RideOfOne(rides, 2, alias);
    RideOfOne(rides, 3, alias);
    SumOfThree(rides, alias);
  }

  lemma SumOfThree(rides: map<int, Ride>, alias: string)
    requires RideTally(rides, 1, alias) == Counts(1, 1, 0, 0, 0)
    requires RideTally(rides, 2, alias) == Counts(1, 0, 0, 0, 1)
    requires RideTally(rides, 3, alias) == Counts(1, 0, 0, 0, 0)
    ensures TallyRides(rides, 4, alias) == Counts(3, 1, 0, 0, 1)
  {
    FirstThreeRides(rides, alias);
  }

  lemma FirstThreeRides(rides: map<int, Ride>, alias: string)
    ensures TallyRides(rides, 4, alias)
         == Plus(Plus(Plus(Zero, RideTally(rides, 1, alias)), RideTally(rides, 2, alias)), RideTally(rides, 3, alias))
  {
  }

  lemma RideOfOne(rides: map<int, Ride>, id: int, alias: string)
    requires id in rides && |rides[id].participations| == 1
    ensures RideTally(rides, id, alias) == CountOne(rides[id].participations[0], alias)
  {
    TallyOfOne(rides[id].participations, alias);
  }

  /** The participations of `alias` over the rides with ids 1 .. n - 1, ride
      by ride. */
  function OfRides(rides: map<int, Ride>, n: int, alias: string): seq<Participation>
    decreases n
  {
    if n <= 1 then []
    else OfRides(rides, n - 1, alias) + (if n - 1 in rides then Of(rides[n - 1].participations, alias) else [])
  }

  lemma StatusesConcat(a: seq<Participation>, b: seq<Participation>)
    ensures StatusesOf(a + b) == StatusesOf(a) + StatusesOf(b)
  {
  }

  /** The store-wide statistics of `get_user_ride_stats`: the total is the
      number of the alias's participations over all the rides, and each status
      count is the number of those that have that status. */
  lemma {:induction false} TallyRidesCounts(rides: map<int, Ride>, n: int, alias: string)
    ensures TallyRides(rides, n, alias).total == |OfRides(rides, n, alias)|
    ensures TallyRides(rides, n, alias).completed == multiset(StatusesOf(OfRides(rides, n, alias)))[Completed]
    ensures TallyRides(rides, n, alias).missing == multiset(StatusesOf(OfRides(rides, n, alias)))[Missing]
    ensures TallyRides(rides, n, alias).notMarked == multiset(StatusesOf(OfRides(rides, n, alias)))[NotMarked]
    ensures TallyRides(rides, n, alias).rejected == multiset(StatusesOf(OfRides(rides, n, alias)))[Rejected]
    decreases n
  {
    if n > 1 {
      TallyRidesCounts(rides, n - 1, alias);
      var rest := OfRides(rides, n - 1, alias);
      var last := if n - 1 in rides then Of(rides[n - 1].participations, alias) else [];
      if n - 1 in rides {
        TallyCounts(rides[n - 1].participations, alias);
      }
      StatusesConcat(rest, last);
    }
  }
}
