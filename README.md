# Ride dispatch model

A Dafny model of the dispatch path of a ride-hailing app built on Supabase. It covers:

* **Geofence helpers** (`Geofencing`):
  * the radius test;
  * the distance-annotated list of drivers inside a radius, in distance order;
  * the 30 km/h arrival estimate.
* **Fare engine** (`Fare`), the `calculate-fare` edge function:
  * lookup of the single active pricing row;
  * the affine base price;
  * the weekday/hour surge;
  * the 30% sharing discount;
  * the minimum-fare floor;
  * cent rounding and the breakdown reply.
* **Driver matcher** (`Matcher`), the `match-driver` edge function:
  * eligibility, sharing, position and radius filters;
  * the two-tier comparator and an in-place insertion sort proved to produce a permutation in which every neighbouring pair is in comparator order;
  * the top-ten reply and the three reply shapes.
* **Ride table and its writes** (`RideWrites`): the `rides` table as a class holding a map from id to row. Each of the four lifecycle writes (start, complete, auto-assign, cancel) is `update(patch).eq('id', id)`. It overwrites exactly its columns on the row with that id, whatever the status, and does nothing if there is no such row.
* **Driver navigation screen** (`DriverNavigate`): load, the status-gated Start/Complete buttons and their handlers.
* **Passenger matching screen** (`PassengerMatching`):
  * load-and-match with its auto-assign/retry decision;
  * auto-assign and cancel;
  * the reaction to realtime status changes.

`Common` holds the shared pieces: `Option`, the distance-function type, JavaScript's `Math.round`/`Math.ceil` on exact reals, cent rounding and a filter. `Schema` holds the `rides` row and the enumerations of the generated database types.

The haversine distance is an argument `dist` of type `(real, real, real, real) -> real`. Every property holds for every such function. Symmetry is required only by the lemmas whose `requires` state it.

Database queries, HTTP calls, the clock and the signed-in user become parameters:
* a table or `QueryResult`;
* an `Invocation`;
* `now`, `day` and `hour`;
* `userId`;
* a `writeOk` flag for whether an update returned an error.

Timers are not run. A load call returns the `Followup` it schedules, and the auto-assign method takes the driver and ride that the timer captured.

## Model

| member | source | states |
|---|---|---|
| Common.MathCeil | src/utils/geofencing.ts:83 | the result is the least integer not below the argument |
| Common.RoundCents | supabase/functions/calculate-fare/index.ts:83 | the result is a whole number of cents within half a cent of the argument, with halves rounded up |
| Common.RoundCentsMonotone | supabase/functions/calculate-fare/index.ts:83 | cent rounding never reverses the order of two amounts |
| Common.RoundCentsKeepsWholeCents | supabase/functions/calculate-fare/index.ts:83 | an amount already in whole cents is left unchanged by rounding |
| Common.MathRound | supabase/functions/calculate-fare/index.ts:83 | `Math.round`: the nearest integer, halves rounded up (`n - 0.5 <= x < n + 0.5`) |
| Common.Filter | src/utils/geofencing.ts:72 | every element satisfying the predicate is kept exactly as often as it occurs in the input, and no other element is kept |
| Geofencing.IsWithinGeofence | src/utils/geofencing.ts:35-44 | the radius test, boundary included; its agreement with the driver filter is stated by `GeofenceAgreesWithRadiusTest` |
| Geofencing.InsertByDistance | src/utils/geofencing.ts:73 | inserting into a distance-ordered list keeps it ordered and adds exactly the one entry |
| Geofencing.SortByDistance | src/utils/geofencing.ts:73 | the output is in non-decreasing distance order and is a permutation of the input |
| Geofencing.FilterDriversByGeofence | src/utils/geofencing.ts:62-73 | the output is in non-decreasing distance order and is a permutation of the measured drivers whose distance is at most the radius |
| Geofencing.GeofenceMembership | src/utils/geofencing.ts:62-72 | every input driver within the radius of the pickup appears with its computed distance; every output entry is an input driver with the same id, latitude and longitude, with distance overwritten by its distance from the pickup, and inside the geofence |
| Geofencing.GeofenceAgreesWithRadiusTest | src/utils/geofencing.ts:35-44 | for a symmetric distance, a driver is kept exactly when `IsWithinGeofence` holds for its position against the pickup, so the boundary counts as inside |
| Geofencing.EstimatedArrivalTime | src/utils/geofencing.ts:80-85 | the minutes value is ceil(2d): `2d <= eta < 2d + 1` |
| Geofencing.ArrivalTimeMonotone | src/utils/geofencing.ts:80-85 | a longer distance never gives an earlier arrival |
| Geofencing.ArrivalTimeAtPickup | src/utils/geofencing.ts:80-85 | a driver at the pickup arrives in 0 minutes |
| Fare.SelectActivePricing | supabase/functions/calculate-fare/index.ts:32-37 | a row comes back exactly when one row of the table is active for the vehicle type, and it is that row |
| Fare.BaseFare | supabase/functions/calculate-fare/index.ts:44-48 | `base_fare + distance * per_km_rate + duration * per_minute_rate`; its monotonicity is stated by `BaseFareMonotone` |
| Fare.SurgeMultiplier | supabase/functions/calculate-fare/index.ts:51-67 | peak checked before night, with the falsy fallbacks; its cases are stated by `SurgeCases`, `PeakAndNightDisjoint` and `SurgeExamples` |
| Fare.DiscountedFare | supabase/functions/calculate-fare/index.ts:69-74 | the surged fare, times 0.7 for a shared ride; the discount is stated by `SharedDiscount` |
| Fare.FlooredFare | supabase/functions/calculate-fare/index.ts:76-80 | the fare is at least the minimum; it equals the minimum when the surged, discounted fare was below it, and that fare otherwise |
| Fare.CalculateFare | supabase/functions/calculate-fare/index.ts:39-94 | a missing row gives exactly the 500 "Pricing configuration not found" error; a present row always gives a breakdown, which copies base fare, minimum and commission from the row and reports the chosen surge, the two charges each rounded to cents on their own, the total rounded from the unrounded floored fare, and "30%"/"0%" exactly for shared/unshared |
| Fare.HandleFareRequest | supabase/functions/calculate-fare/index.ts:32-41 | the reply is an error exactly when the number of active rows for the vehicle type is not one |
| Fare.BaseFareMonotone | supabase/functions/calculate-fare/index.ts:44-48 | with non-negative rates, the pre-surge fare does not decrease in distance or in duration |
| Fare.PeakAndNightDisjoint | supabase/functions/calculate-fare/index.ts:56-61 | no weekday and hour is both peak and night |
| Fare.SurgeCases | supabase/functions/calculate-fare/index.ts:63-67 | peak gives the configured peak multiplier, or 1.5 when it is null or zero; night gives the night multiplier, or 1.3 when it is null or zero; any other time gives 1.0 |
| Fare.SurgeExamples | supabase/functions/calculate-fare/index.ts:51-67 | weekday 09:00 is peak, 02:00 is night on every day, and weekday 14:00, Saturday 09:00 and weekday 20:00 are surge-free |
| Fare.SharedDiscount | supabase/functions/calculate-fare/index.ts:69-74 | before the floor, a shared ride costs 0.7 times the same ride unshared |
| Fare.TotalAtLeastMinimum | supabase/functions/calculate-fare/index.ts:77-83 | when the minimum fare is in whole cents, the rounded total is still at least the minimum |
| Fare.TotalIsCentRounded | supabase/functions/calculate-fare/index.ts:83 | the total is in whole cents and within half a cent of the floored fare |
| Matcher.ToCandidate | supabase/functions/match-driver/index.ts:98-131 | a vehicle yields an entry exactly when its driver has truthy coordinates and the unrounded distance is within the search radius; the entry carries the vehicle's and driver's ids, rating and position, and the distance rounded to cents |
| Matcher.CollectCandidates | supabase/functions/match-driver/index.ts:98-133 | it has one entry per vehicle that yields a candidate, so `totalCount` is the number of vehicles within the radius |
| Matcher.CollectedComeFromVehicles | supabase/functions/match-driver/index.ts:98-133 | every entry is the candidate built from some queried vehicle |
| Matcher.VehiclesAreCollected | supabase/functions/match-driver/index.ts:98-133 | every queried vehicle that yields a candidate has that candidate in the list |
| Matcher.CandidatesAreExactlyTheEligible | supabase/functions/match-driver/index.ts:57-116 | each meets every test: requested type, active, online driver, sharing-enabled when sharing was asked for, positioned, and within the radius (5 km by default). No other test is applied. Every vehicle meeting them yields a candidate |
| Matcher.Compare | supabase/functions/match-driver/index.ts:136-143 | the comparator on reported distances with null ratings as 0; its properties are stated by `CompareAntisymmetric`, `TieBreakByRating`, `FarApartByDistance` and `CompareHasCycle` |
| Matcher.CompareAntisymmetric | supabase/functions/match-driver/index.ts:136-143 | `cmp(a, b) == -cmp(b, a)` |
| Matcher.TieBreakByRating | supabase/functions/match-driver/index.ts:139-141 | at 2.0 km rated 4.2 against 2.3 km rated 4.8, the 4.8 driver goes first |
| Matcher.FarApartByDistance | supabase/functions/match-driver/index.ts:138-142 | at 1.0 km against 4.0 km, the nearer driver goes first whatever the ratings |
| Matcher.CompareHasCycle | supabase/functions/match-driver/index.ts:136-143 | three candidates 0.4 km apart with rising ratings form a cycle: the comparator is not transitive |
| Matcher.RankCandidates | supabase/functions/match-driver/index.ts:136-143 | the array after the in-place sort is a permutation of the array before, and every neighbouring pair is in comparator order |
| Matcher.TopTen | supabase/functions/match-driver/index.ts:150 | the reply holds the first min(10, n) ranked entries |
| Matcher.RankedReply | supabase/functions/match-driver/index.ts:136-152 | the `success: true` reply whose `totalCount` is the number of candidates and whose list is the top ten of a ranking of them |
| Matcher.ErrorMessage | supabase/functions/match-driver/index.ts:156-162 | the error text is the error's message for an `Error` instance and "Unknown error" otherwise |
| Matcher.MatchDrivers | supabase/functions/match-driver/index.ts:57-162 | a query error gives exactly the 500 reply with the message chosen by `ErrorMessage`; no queried vehicles gives the `success: false` reply; otherwise `success: true` with a top-ten of a ranking of the candidates, `totalCount` their number (0 when all were filtered out), and `min(10, totalCount)` entries |
| RideWrites.UpdateWhereId | src/pages/driver/Navigate.tsx:51-57 | the row with the id gets the patch; no other row changes and no row is added or removed; an unknown id changes nothing |
| RideWrites.RideById | src/pages/driver/Navigate.tsx:27-31 | the row stored under the id, or nothing when there is none |
| RideWrites.StartPatch | src/pages/driver/Navigate.tsx:53-56 | the start columns; stated by `WritesKeepPairing`, `WritesIgnoreStatus` and `TripWritesCompose` |
| RideWrites.CompletePatch | src/pages/driver/Navigate.tsx:73-77 | the complete columns; stated by `WritesIgnoreStatus`, `TripWritesCompose` and `CancelAfterCompleteKeepsFare` |
| RideWrites.AssignPatch | src/pages/passenger/DriverMatching.tsx:129-134 | the auto-assign columns; stated by `WritesKeepPairing`, `WritesIgnoreStatus` and `AssignAfterCancelReopens` |
| RideWrites.CancelPatch | src/pages/passenger/DriverMatching.tsx:151-156 | the cancel columns, `cancelled_by` kept when nobody is signed in; stated by `WritesIgnoreStatus` and `CancelAfterCompleteKeepsFare` |
| RideWrites.RidesTable.constructor | src/integrations/supabase/types.ts:228-258 | the table holds the given rows, each under its own id |
| RideWrites.RidesTable.StartTrip | src/pages/driver/Navigate.tsx:51-57 | exactly `status := in_progress` and `started_at := now` on the row with the id, with no status condition |
| RideWrites.RidesTable.CompleteTrip | src/pages/driver/Navigate.tsx:71-78 | exactly `status := completed`, `completed_at := now` and `final_fare` on the row with the id, with no status condition |
| RideWrites.RidesTable.AssignDriver | src/pages/passenger/DriverMatching.tsx:127-135 | exactly driver, vehicle, `status := accepted` and `accepted_at := now` on the row with the id, with no status condition |
| RideWrites.RidesTable.Cancel | src/pages/passenger/DriverMatching.tsx:149-157 | exactly `status := cancelled`, `cancelled_at`, `cancelled_by` (when a user is signed in) and the "User cancelled" reason on the row with the id, with no status condition |
| RideWrites.WritesKeepPairing | src/pages/passenger/DriverMatching.tsx:129-134 | auto-assign sets driver and vehicle together, and no write leaves one set without the other |
| RideWrites.WritesIgnoreStatus | src/pages/driver/Navigate.tsx:51-78 | each write sets its status from any status, including completed and cancelled |
| RideWrites.AssignAfterCancelReopens | src/pages/passenger/DriverMatching.tsx:125-157 | an auto-assign that lands after a cancel leaves an accepted ride that still carries its cancellation columns |
| RideWrites.CancelAfterCompleteKeepsFare | src/pages/passenger/DriverMatching.tsx:149-157 | cancelling a completed ride succeeds and keeps its final fare and completion time |
| RideWrites.TripWritesCompose | src/pages/driver/Navigate.tsx:49-88 | start then complete changes exactly status, start and completion times and the final fare, which is set to the estimate |
| DriverNavigate.OfferedAction | src/pages/driver/Navigate.tsx:170-188 | Start is rendered exactly for an accepted ride, Complete exactly for one in progress |
| DriverNavigate.ButtonPath | src/pages/driver/Navigate.tsx:170-188 | the buttons lead accepted → in progress → completed, and nothing is offered after that |
| DriverNavigate.NoButtonOutsideTrip | src/pages/driver/Navigate.tsx:170-188 | requested, matched, completed and cancelled rides get no button |
| DriverNavigate.NavigateScreen.constructor | src/pages/driver/Navigate.tsx:9-14 | the screen starts with no ride loaded |
| DriverNavigate.NavigateScreen.Mount | src/pages/driver/Navigate.tsx:16-34 | with no ride id it goes to the driver home; otherwise it loads the ride with that id, keeping the previous copy when the lookup fails; in a table whose rows sit under their own ids, the loaded copy carries the route's id |
| DriverNavigate.NavigateScreen.HandleStartTrip | src/pages/driver/Navigate.tsx:49-66 | a successful write is the start write keyed by the route's id, and the local copy changes only its status, to in progress; a failed write changes nothing |
| DriverNavigate.NavigateScreen.HandleCompleteTrip | src/pages/driver/Navigate.tsx:69-88 | a successful write is the complete write with the local copy's estimated fare as final fare, then the screen goes to the driver home; a failed write changes nothing |
| DriverNavigate.NavigateScreen.PressOfferedButton | src/pages/driver/Navigate.tsx:170-188 | pressing the rendered button starts an accepted ride (the local copy changes only its status) or completes one in progress (the local copy is kept, the screen goes home); with any other status, or when the write fails, nothing changes |
| PassengerMatching.InvocationOf | src/pages/passenger/DriverMatching.tsx:85-100 | the 500 reply reaches the screen as an invocation error, and any other reply as its body |
| PassengerMatching.MatchRequestFor | src/pages/passenger/DriverMatching.tsx:85-95 | the request carries the ride's vehicle type and pickup and no radius (so 5 km); sharing is asked for only when `is_shared` is true |
| PassengerMatching.MatchDecision | src/pages/passenger/DriverMatching.tsx:97-122 | a failed lookup or invocation fails without scheduling anything. A non-empty list schedules a 10 s auto-assign of its first driver with the loaded ride. An empty list schedules a 5 s retry exactly when the counter value read is below 3, and otherwise reports no drivers |
| PassengerMatching.RouteAfterStatus | src/pages/passenger/DriverMatching.tsx:54-63 | accepted opens the ride-active screen for this ride, cancelled goes home, any other status is ignored |
| PassengerMatching.MatchingScreen.constructor | src/pages/passenger/DriverMatching.tsx:28-32 | the screen starts loading, with no drivers, no ride and the counter at 0 |
| PassengerMatching.MatchingScreen.LoadRideAndMatch | src/pages/passenger/DriverMatching.tsx:72-123 | the request sent is built from the ride looked up by id (none when the lookup fails); the follow-up is the decision for that ride, given the counter's value. An empty reply raises the counter by one. Drivers are stored only when an auto-assign is scheduled. The spinner stays only while a retry is pending. In a table whose rows sit under their own ids, the stored ride carries the route's id, so the later auto-assign keyed by `ride.id` writes that row |
| PassengerMatching.MatchingScreen.Mount | src/pages/passenger/DriverMatching.tsx:34-41 | with no ride id it goes home, sends and schedules nothing and leaves every other field as it was; otherwise its request, follow-up and new state are those of `LoadRideAndMatch` and the route is kept |
| PassengerMatching.MatchingScreen.AutoAssignDriver | src/pages/passenger/DriverMatching.tsx:125-145 | a successful write is the assign write keyed by the captured ride's id, then the ride-active screen opens; a failed write changes nothing |
| PassengerMatching.MatchingScreen.HandleCancel | src/pages/passenger/DriverMatching.tsx:147-167 | a successful write is the cancel write keyed by the route's id, then the screen goes home; a failed write changes nothing |
| PassengerMatching.MatchingScreen.OnRideStatusChange | src/pages/passenger/DriverMatching.tsx:54-63 | the route follows the status pushed for this ride |
| PassengerMatching.AutoAssignTargetsTop | src/pages/passenger/DriverMatching.tsx:102-107 | a ranked reply with drivers schedules, after 10 s, the auto-assign of its top-ranked driver |
| PassengerMatching.NoVehiclesRetries | src/pages/passenger/DriverMatching.tsx:102-116 | the `success: false` reply is treated as an empty list: a retry while under budget, then no drivers |
| PassengerMatching.ErrorSchedulesNothing | src/pages/passenger/DriverMatching.tsx:97-122 | a 500 reply from the matcher ends in the error path, with neither a retry nor an auto-assign |
| PassengerMatching.ChainCalls | src/pages/passenger/DriverMatching.tsx:108-116 | the number of calls made by a chain of empty replies never exceeds its bound |
| PassengerMatching.StaleChainNeverStops | src/pages/passenger/DriverMatching.tsx:110-112 | with the value captured on the first render, a chain of empty replies retries on every call, for every bound |
| PassengerMatching.CurrentChainStopsAfterThreeRetries | src/pages/passenger/DriverMatching.tsx:110-116 | reading the current counter, the chain from mount makes exactly four calls (the first and three retries) |
| PassengerMatching.CurrentChainEndsWithNoDrivers | src/pages/passenger/DriverMatching.tsx:110-116 | reading the current counter, calls 0 to 2 retry after 5 s and call 3 reports no drivers |
| PassengerMatching.PendingAssignOverridesCancel | src/pages/passenger/DriverMatching.tsx:107 | a cancel that lands while the auto-assign timer is pending is overwritten: the stored ride ends up accepted by that driver, with its cancellation time still set |

## Left out

- Haversine distance (`calculateDistance` in both files): floating-point trigonometry. It is the `dist` argument. Symmetry is a `requires` where used; no other property of it is used.
- Floating-point arithmetic: money, distances and multipliers are exact reals, so binary rounding of `x * 100` before `Math.round` is not modelled. `parseFloat` of numeric columns is the identity.
- HTTP serving, CORS preflight, `req.json()`, environment variables and the Supabase client are left out. The pricing and vehicle tables, the profile map and the query error are inputs.
- The fare request's `currentTime` and `new Date()`: the local weekday and hour are inputs, so time-zone handling is not modelled.
- Fare.CalculateFare: a request body with missing or non-numeric fields is not modelled, because the request fields are typed inputs.
- Matcher.MatchDrivers: the profile query's error is ignored by the source and the profile map is an input, so a failed profile fetch is just an empty map.
- Common.Filter: the relative order of the kept elements is not stated, only which elements are kept and how many times each; no property stated here depends on that order: the filtered lists are then sorted, ranked up to any comparator-consistent order, or only counted.
- Matcher.CollectCandidates: the order of the entries is not stated, only how many there are and which; the list is ranked next, and the ranking is stated up to that order.
- Matcher.RankCandidates: `Array.prototype.sort` with an inconsistent comparator: ECMAScript leaves the resulting order implementation-defined. The model specifies the result as a permutation in which every neighbouring pair is in comparator order, and produces one such order by insertion sort. It is not shown that Deno's engine meets this.
- Timers and their cancellation: `setTimeout` is a `Followup` value that the caller fires. The timers outlive cancel and unmount; this is shown with `PendingAssignOverridesCancel` rather than simulated.
- Realtime channel subscription and removal: a pushed status is a call to `OnRideStatusChange`.
- Toasts, console logging, spinners' text and the passenger profile fetch on the navigation screen are left out as display only.
- PassengerMatching.MatchingScreen.LoadRideAndMatch: it reads the counter's current value, which is the corrected behaviour. The source's retry timers read the value captured on the first render (see Findings).
- Navigate and the matching screen's writes: `writeOk` stands for whether the update returned an error. The error's cause (network, row-level security) is not modelled.
- Location tracking hooks, the active-ride screen, the `updated_at` trigger and the stored procedures are not part of this model.

## Findings

| source | as written | input that shows it | evidently intended | confidence | as-written member | corrected member |
|---|---|---|---|---|---|---|
| src/pages/passenger/DriverMatching.tsx:110-112 | the retry timer calls the `loadRideAndMatch` of the first render, whose `matchAttempts` is always 0, so `matchAttempts < 3` holds on every retry | a ride for which every match reply has no drivers: retries continue every 5 s without end, and the spinner shows "Retry attempt 4/3", "5/3", … | three retries, then stop loading and report "No drivers available" | not executed | PassengerMatching.StaleChainNeverStops | PassengerMatching.CurrentChainStopsAfterThreeRetries |
