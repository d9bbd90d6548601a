# Ride-sharing core, modelled and verified in Dafny

This project models the ride-sharing service in `pregunta1.py`. Users register under an alias. A user with a car plate on file is a driver and may publish rides with a number of seats. Other users ask to join a ride. The driver accepts or rejects each request, starts the ride with the riders who are present, and ends it. A rider on board gets off ("unload"). The service also keeps each user's participation statistics.

The model has five modules:

- `Domain` (`domain.dfy`): the entities, the status vocabularies, the typed errors and the capacity calculator (`AvailableSpaces`).
- `Lifecycle` (`lifecycle.dfy`): the six guarded transitions of a ride and its participations (join, accept, reject, unload, start, end). Each is a pure function of the ride. It tests the conditions in the same order as the endpoint that runs it, and returns the updated ride or the first error. The module also proves the properties of these transitions.
- `Stats` (`stats.dfy`): the statistics aggregator as a specification (`Tally`, `TallyRides`), with its properties.
- `Store` (`store.dfy`): the `DataHandler`, a class whose fields are the user map, the ride map and the next-ride-id counter. One store object is created and passed to every endpoint; there is no global instance. The statistics loops are methods proved equal to the `Stats` specification.
- `Api` (`api.dfy`): one method per endpoint. Each takes the store and already-parsed arguments and returns `Success` or `Failure(error)`. Each is proved to answer exactly what a step function of the old store says (`JoinStep`, `AcceptStep`, …). Each is also proved to change only the ride it names, and only when it succeeds. The module also holds the source's loops over a ride's participations (first-match search, resolved check, roll call, end sweep), a few store-level theorems and some scenarios.

Rides and participations are datatype values held in the store's ride map. The source mutates such an object in place; this becomes replacing the ride in the map. The store invariant `DataHandler.Valid` says four things:

- users are filed under their own alias;
- rides are numbered 1 … `nextRideId - 1` without gaps;
- each ride is filed under its own id, with every participation pointing back to it;
- no alias appears twice in one ride, and every participation status fits the ride's status.

Every state-changing method keeps this invariant.

Python truthiness is modelled explicitly:

- a missing or empty text is `""`;
- a missing JSON number is `None`;
- `Truthy` refuses only `None` and `0`.

"Now" (the acceptance stamp) and the parsed ride date both arrive as opaque `Moment` values. The caller hands them in.

## Where the code and its evident intent differ

The model follows the code in each of these cases; the capacity theorems state the hypothesis they need.

- The code refuses only a missing or zero seat count: the truthiness guards at pregunta1.py:265 and pregunta1.py:482 let a negative `occupiedSpaces` or `allowedSpaces` through. The capacity check that follows (pregunta1.py:268-270) and the seat sum of `available_spaces` (pregunta1.py:80-83) only make sense for positive counts, so positive counts are evidently what the code means to admit.
  - `Lifecycle.NegativeSeatsOverbook` shows that a request for -1 seats lets a one-seat ride end up with two seats held.
  - `Api.NegativeCapacityAccepted` shows that a ride with -1 seats is published.
  - The seat-soundness theorems (`Lifecycle.*KeepsCapacity`, `Api.StepsKeepSeatsSound`) therefore assume that no seat count is negative.
- The code never compares the requester with the driver, so a driver may ask to join their own ride (`Lifecycle.DriverMayJoinOwnRide`). A ride keeps its driver apart from its participations (pregunta1.py:76-78), and only the ride's driver may answer its requests (pregunta1.py:285-290 for accept), so a driver who is also a rider on the same ride is evidently not what the code has in mind.
- A driver/ride mismatch is reported like a missing ride (HTTP 404) rather than as a capability error. It is modelled as its own error, `NotRideOwner`.

## Model

| member | source | states |
|---|---|---|
| Domain.User.IsDriver | pregunta1.py:33-34 | a user is a driver iff a car plate is on file; the endpoints' driver checks use it |
| Domain.NewParticipation | pregunta1.py:37-43 | a new participation is waiting, unconfirmed, and holds the given rider, ride, destination and seats; `Lifecycle.JoinSucceedsIff` states what join appends |
| Domain.NewRide | pregunta1.py:71-78 | a new ride is ready and empty, with the given id, date, address, capacity and driver; `Store.DataHandler.CreateRide` states its filing |
| Domain.AvailableSpaces | pregunta1.py:80-83 | the free seats: capacity minus the seats held; `Domain.OccupiedIsFilteredSum` states what is held |
| Domain.OccupiedIsFilteredSum | pregunta1.py:80-83 | the seats a ride holds are the sum of the seat counts of exactly the confirmed and in-progress participations, and a participation is among those summed iff it has one of those two statuses |
| Domain.OccupiedAppend | pregunta1.py:80-83 | appending a participation adds exactly the seats it holds |
| Domain.OccupiedUpdate | pregunta1.py:80-83 | replacing one participation changes the held seats by what the new one holds minus what the old one held, and by nothing else |
| Domain.OccupiedMonotone | pregunta1.py:80-83 | if no participation holds more seats than before, the total held does not grow |
| Domain.OccupiedNoneHeld | pregunta1.py:80-83 | a ride none of whose participations is confirmed or in progress holds no seats |
| Domain.OccupiedNonNegative | pregunta1.py:80-83 | with no negative seat counts, the held seats are never negative |
| Domain.FirstIndex | pregunta1.py:298-299 | the first-match search: a found index is in range, matches the alias and comes before any other match; nothing is found iff no participation has the alias |
| Domain.FirstIndexUnique | pregunta1.py:256-258 | on a list without duplicate aliases the first match is the only match |
| Lifecycle.Join | pregunta1.py:251-274 | the join transition, with its checks in the code's order; `Lifecycle.JoinSucceedsIff` and `Lifecycle.JoinRefusesDuplicate` state its outcome |
| Lifecycle.Accept | pregunta1.py:292-316 | the accept transition; `Lifecycle.AcceptSucceedsIff` and `Lifecycle.AcceptTakesSeats` state its outcome |
| Lifecycle.Reject | pregunta1.py:334-353 | the reject transition; `Lifecycle.RejectSucceedsIff` states its outcome |
| Lifecycle.Unload | pregunta1.py:436-455 | the unload transition; `Lifecycle.UnloadSucceedsIff` states its outcome |
| Lifecycle.Start | pregunta1.py:371-393 | the start transition; `Lifecycle.StartOutcome` states its outcome |
| Lifecycle.End | pregunta1.py:411-421 | the end transition; `Lifecycle.EndOutcome` states its outcome |
| Lifecycle.JoinRefusesDuplicate | pregunta1.py:255-258 | on an open ride, a second request from an alias that already has a participation, whatever its status, is refused as a duplicate |
| Lifecycle.JoinSucceedsIff | pregunta1.py:251-274 | a join succeeds iff the ride is ready, the alias is new to it, the destination is given, the seat count is truthy and it fits the free seats; on success exactly one waiting, unconfirmed participation with those seats is appended, the earlier ones are unchanged, and the free seats do not change |
| Lifecycle.JoinKeepsRideOk | pregunta1.py:255-274 | a successful join keeps the ride free of duplicate aliases, with every participation pointing at the ride and every status fitting the ride's status |
| Lifecycle.AcceptTakesSeats | pregunta1.py:306-312 | a successful accept takes exactly the participation's seats from the free seats and leaves them non-negative |
| Lifecycle.AcceptSucceedsIff | pregunta1.py:292-313 | on a ride without duplicates, accept succeeds iff the ride is ready and the alias's participation is waiting and fits; a non-waiting one gives the participation-state error; on success that participation becomes confirmed with its stamp set to `now`, its seats are kept, and every other participation is unchanged |
| Lifecycle.RejectSucceedsIff | pregunta1.py:334-350 | on a ride without duplicates, reject succeeds iff the ride is ready and the alias's participation is waiting; on success only that participation becomes rejected, its confirmation is untouched, and the free seats do not change |
| Lifecycle.UnloadSucceedsIff | pregunta1.py:436-452 | on a ride without duplicates, unload succeeds iff the ride and the alias's participation are both in progress; a wrong status gives the participation-state error; on success only that participation becomes completed and its seats are freed |
| Lifecycle.NoParticipationNotFound | pregunta1.py:296-316 | once the ride-status check has passed, an alias with no participation gets the not-found error from accept, reject and unload |
| Lifecycle.AcceptKeepsRideOk | pregunta1.py:292-313 | a successful accept keeps every invariant the store keeps for the ride |
| Lifecycle.RejectKeepsRideOk | pregunta1.py:334-350 | a successful reject keeps every invariant the store keeps for the ride |
| Lifecycle.UnloadKeepsRideOk | pregunta1.py:436-452 | a successful unload keeps every invariant the store keeps for the ride |
| Lifecycle.StartOutcome | pregunta1.py:371-393 | start succeeds iff the ride is ready and every request is confirmed or rejected; on success the ride is in progress, each confirmed rider boards if present and is missing otherwise, rejected ones are untouched, and nobody is left waiting or confirmed |
| Lifecycle.StartFreesSeats | pregunta1.py:384-393 | with no negative seat counts, start never reduces the free seats |
| Lifecycle.StartKeepsRideOk | pregunta1.py:371-393 | a successful start keeps every invariant the store keeps for the ride |
| Lifecycle.EndOutcome | pregunta1.py:411-421 | end succeeds iff the ride is in progress; on success the ride is finished, every in-progress participation becomes not-marked, every other one is untouched, none is left in progress, and all seats are free |
| Lifecycle.EndKeepsRideOk | pregunta1.py:411-421 | a successful end keeps every invariant the store keeps for the ride |
| Lifecycle.StartThenEndWithNobodyPresent | pregunta1.py:384-421 | a start with nobody present followed by an end finishes the ride, with every confirmed rider missing and nobody in progress |
| Lifecycle.RideStatusMonotone | pregunta1.py:371-421 | a ride's status only moves forward, one step at a time, and only start and end move it; no transition changes its id, date, address, capacity or driver |
| Lifecycle.JoinKeepsCapacity | pregunta1.py:268-274 | a join leaves the free seats as they were, and keeps the seat accounting sound when the new request is not negative |
| Lifecycle.AcceptKeepsCapacity | pregunta1.py:306-312 | accept keeps the seat accounting sound (no negative counts, no negative free seats) |
| Lifecycle.RejectKeepsCapacity | pregunta1.py:348-349 | reject keeps the seat accounting sound |
| Lifecycle.UnloadKeepsCapacity | pregunta1.py:450-451 | unload keeps the seat accounting sound |
| Lifecycle.StartKeepsCapacity | pregunta1.py:387-393 | start keeps the seat accounting sound |
| Lifecycle.EndKeepsCapacity | pregunta1.py:418-421 | end keeps the seat accounting sound |
| Lifecycle.NegativeSeatsOverbook | pregunta1.py:265-274 | a request for -1 seats passes the checks, and the sequence of join, accept, join, accept and start that follows leaves a one-seat ride with -1 free seats |
| Lifecycle.DriverMayJoinOwnRide | pregunta1.py:233-274 | the driver's own request to join their open ride succeeds |
| Stats.Tally | pregunta1.py:142-153 | one ride's counts for an alias; `Stats.TallyCounts` states what they count |
| Stats.TallyRides | pregunta1.py:131-155 | the store-wide counts for an alias over rides 1 … n-1; `Stats.TallyRidesCounts` states what they count |
| Stats.TallyCounts | pregunta1.py:131-155 | the total is the number of participations with the alias, and each status count is the number of those with that status |
| Stats.TallyBound | pregunta1.py:143-153 | for one ride, the four status counts add up to at most the total |
| Stats.TallyRidesBound | pregunta1.py:141-155 | over all rides, the four status counts add up to at most the total |
| Stats.TallyUpdate | pregunta1.py:141-153 | replacing one participation changes a user's counts by what the new one contributes minus what the old one contributed |
| Stats.TallyRidesUpdate | pregunta1.py:141-155 | replacing one ride changes a user's store-wide counts by the difference of the two rides' counts |
| Stats.TallyRidesFrame | pregunta1.py:141-155 | the store-wide counts depend only on the rides with ids 1 … n-1 |
| Stats.JoinCountsOnce | pregunta1.py:141-144 | after a successful join the requester's total goes up by one and nothing else moves; nobody else's counts change |
| Stats.AcceptKeepsCounts | pregunta1.py:144-153 | accept moves nobody's counts, because neither waiting nor confirmed is a counted status |
| Stats.TallyRidesCounts | pregunta1.py:131-155 | over rides 1 … n-1, the total is the number of the alias's participations on all of them, and each status count is the number of those with that status |
| Stats.ThreeRidesExample | pregunta1.py:131-155 | an alias with one participation on each of three rides (completed on a finished ride, rejected on a ride in progress, waiting on a ready ride) gets total 3, completed 1, rejected 1 and nothing else |
| Store.RidesWhere | pregunta1.py:125-129 | the selected rides are exactly the filed rides that pass the filter, in ascending id order |
| Store.CountParticipation | pregunta1.py:143-153 | one step of the inner loop adds exactly that participation's contribution to the counts |
| Store.CountInRide | pregunta1.py:142-153 | the inner loop adds exactly one ride's counts for the alias |
| Store.CountInRides | pregunta1.py:141-155 | the outer loop produces exactly the store-wide counts |
| Store.DataHandler.constructor | pregunta1.py:102-105 | a new store has no users, no rides and the counter at 1, and satisfies the store invariant |
| Store.DataHandler.AddUser | pregunta1.py:107-108 | files the user under its alias, replacing any user there, and changes nothing else |
| Store.DataHandler.GetUser | pregunta1.py:110-111 | finds a user iff the alias is filed, and then returns the user filed under it |
| Store.DataHandler.CreateRide | pregunta1.py:116-120 | files a ready, empty ride under the current counter, which was free, and advances the counter by one |
| Store.DataHandler.GetRide | pregunta1.py:122-123 | finds a ride iff its id is between 1 and the last id handed out, and then returns the ride filed under it |
| Store.DataHandler.GetUserRides | pregunta1.py:125-126 | returns exactly the filed rides the alias drives, oldest first |
| Store.DataHandler.GetActiveRides | pregunta1.py:128-129 | returns exactly the filed rides that are not finished, oldest first |
| Store.DataHandler.GetUserRideStats | pregunta1.py:131-155 | returns the alias's counts over every ride of the store |
| Api.CreateStep | pregunta1.py:465-493 | the create_ride checks in the code's order, then the new ride under the next id; `Api.CreateRide` is proved to answer it |
| Api.JoinStep | pregunta1.py:233-276 | the join endpoint on the old store: the two user lookups, the ride and ownership lookups, then the join transition; `Api.RequestToJoinRide` is proved to answer it |
| Api.AcceptStep | pregunta1.py:278-318 | the accept endpoint on the old store: the driver's lookups, then the accept transition; `Api.AcceptParticipant` is proved to answer it |
| Api.RejectStep | pregunta1.py:320-355 | the reject endpoint on the old store; `Api.RejectParticipant` is proved to answer it |
| Api.StartStep | pregunta1.py:357-395 | the start endpoint on the old store; `Api.StartRide` is proved to answer it |
| Api.EndStep | pregunta1.py:397-423 | the end endpoint on the old store; `Api.EndRide` is proved to answer it |
| Api.UnloadStep | pregunta1.py:425-457 | the unload endpoint on the old store: participant and ride lookups, no ownership check, then the unload transition; `Api.UnloadParticipant` is proved to answer it |
| Api.FindParticipation | pregunta1.py:298-299 | the loop finds the first participation of the alias |
| Api.AllResolved | pregunta1.py:380-382 | the check passes iff every participation is confirmed or rejected |
| Api.BoardAll | pregunta1.py:388-393 | the in-place loop produces exactly the roll call of start |
| Api.CloseAll | pregunta1.py:419-421 | the in-place loop produces exactly the sweep of end |
| Api.CreateUser | pregunta1.py:496-515 | an empty alias or name is refused first, then a taken alias; otherwise the user is added with the given plate; rides and counter never change |
| Api.CreateRide | pregunta1.py:465-493 | refuses an unknown user, then a non-driver, then missing fields, then (and only then) a date that did not parse with the date-format error; succeeds exactly when none applies, with a ready ride of the driver under the next id; it answers exactly what the create step of the old store says; a refusal changes nothing |
| Api.RequestToJoinRide | pregunta1.py:233-276 | answers what the join step of the old store says and stores its ride on success only; users and counter never change; the store invariant is kept |
| Api.AcceptParticipant | pregunta1.py:278-318 | answers what the accept step says and stores its ride on success only; the store invariant is kept |
| Api.RejectParticipant | pregunta1.py:320-355 | answers what the reject step says and stores its ride on success only; the store invariant is kept |
| Api.StartRide | pregunta1.py:357-395 | answers what the start step says and stores its ride on success only; the store invariant is kept |
| Api.EndRide | pregunta1.py:397-423 | answers what the end step says and stores its ride on success only; the store invariant is kept |
| Api.UnloadParticipant | pregunta1.py:425-457 | answers what the unload step says (no ownership check) and stores its ride on success only; the store invariant is kept |
| Api.OnlyTheOwnerChangesARide | pregunta1.py:285-290 | join, accept, reject, start and end succeed only for a registered driver on an existing ride that driver owns; join also needs the participant registered, and unload needs the participant and the ride |
| Api.CreateKeepsSeatsSound | pregunta1.py:482-491 | a ride published with a non-negative capacity is sound and leaves the other rides as they were |
| Api.StepsKeepSeatsSound | pregunta1.py:268-491 | as long as nobody offers or asks for a negative number of seats, no endpoint (create, join, accept, reject, start, end, unload) ever leaves a ride of the store overbooked |
| Api.SequentialIds | pregunta1.py:116-120 | a fresh store numbers the rides it creates 1, 2, 3 |
| Api.NegativeCapacityAccepted | pregunta1.py:482-491 | a ride with -1 seats is published, with -1 free seats |
| Api.WholeRide | pregunta1.py:233-423 | on a two-seat ride, one accepted seat leaves one free seat, a request for three is refused with one available, and a rider who boards and is never unloaded ends not-marked, which the rider's statistics show |

## Left out

- HTTP plumbing: routing, reading request bodies, `jsonify` and the status codes (400, 404, 422). The typed `Error` stands for each refusal; the message texts are not modelled.
- The `to_dict` serialisers of users, participations and rides, including the participant statistics shown in a ride's view and the date formatting.
- Date parsing and the clock. `Api.CreateRide` receives the date text and the result of parsing it as `parsed` (None when it does not parse). `Api.AcceptParticipant` receives the acceptance stamp as `now`.
- JSON values of other types than the model's. `occupiedSpaces` and `allowedSpaces` are integers or missing; `presentParticipants` is a set of aliases. These behaviours of other JSON types are not modelled:
  - a float or boolean `occupiedSpaces` (`0.5`, `true`) passes the truthiness guard and the comparison at pregunta1.py:265-269 and is stored as the participation's seat count;
  - a string `allowedSpaces` (`"abc"`) passes the guard at pregunta1.py:482; the ride is filed and `next_ride_id` advances (pregunta1.py:491, 117-119), and only the serialisation of the answer raises (pregunta1.py:83, 93), after the store has changed;
  - a string `occupiedSpaces` makes the comparison at pregunta1.py:269 raise before anything changes;
  - a JSON string as `presentParticipants`, on which Python's `in` tests substrings.
- The read-only GET endpoints (`get_usuarios`, `get_usuario`, `get_usuario_rides`, `get_usuario_ride`, `get_rides`) and `DataHandler.get_all_users`. They do lookups the model already has (`GetUser`, `GetUserRides`, `GetRide`, `GetActiveRides`) and then serialise.
- The global `data_handler` instance and `init_test_data`, which add a participation directly and bypass the checks.
- Object identity. Users, rides and participations are values. A participation keeps the user it was created with. The source shares objects, but no endpoint changes a user after registration, so nothing observable differs.
- Concurrency: each endpoint is one atomic method call.
- The files under `src/` are not part of this model.
