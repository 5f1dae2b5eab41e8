/** The passenger's matching screen: it loads the ride, asks `match-driver` for drivers,
    schedules an auto-assign to the first driver or a retry, lets the passenger cancel, and
    follows the ride's status pushes. Timers are not run here: a call returns the follow-up
    it schedules, and the caller decides when (and whether) it fires. */
module PassengerMatching {
  import opened Common
  import opened Schema
  import opened Matcher
  import opened RideWrites

  const AutoAssignDelayMs: nat := 10000
  const RetryDelayMs: nat := 5000
  /** The retry budget the screen displays as `Retry attempt n/3`. */
  const MaxRetries: nat := 3

  /** What `functions.invoke('match-driver')` hands back: the parsed body, or an error for a
      non-2xx reply. */
  datatype Invocation = Delivered(response: MatchResponse) | InvokeError

  /** The invocation as seen by the client: the 500 reply surfaces as an error. */
  function InvocationOf(resp: MatchResponse): (inv: Invocation)
    ensures inv.InvokeError? <==> resp.MatchFailed?
    ensures inv.Delivered? ==> inv.response == resp
  {
    if resp.MatchFailed? then InvokeError else Delivered(resp)
  }

  /** The request body built from the ride: no search radius, and a null `is_shared` is falsy. */
  function MatchRequestFor(ride: RideRow): (q: MatchRequest)
    ensures q.vehicleType == ride.vehicleType
    ensures q.pickupLatitude == ride.pickupLatitude && q.pickupLongitude == ride.pickupLongitude
    ensures q.isShared <==> ride.isShared == Some(true)
    ensures SearchRadius(q) == DefaultSearchRadius
  {
    MatchRequest(ride.vehicleType, ride.pickupLatitude, ride.pickupLongitude, ride.isShared == Some(true), None)
  }

  datatype Route = OnMatching | RideActive(rideId: string) | PassengerHome

  /** What one `loadRideAndMatch` call leaves scheduled or shown. */
  datatype Followup =
    | AutoAssignAfter(delayMs: nat, driver: Candidate, ride: RideRow)
    | RetryAfter(delayMs: nat)
    | NoDriversAvailable
    | Failed

  /** The decision of one `loadRideAndMatch` call, given the ride lookup, the invocation and
      the value of `matchAttempts` the call reads. A failed lookup or invocation ends the
      search; drivers schedule the auto-assign to the first one; an empty list (including the
      `success: false` reply) retries while the value read is under the budget. */
  function MatchDecision(ride: Option<RideRow>, inv: Invocation, attemptsSeen: nat): (f: Followup)
    ensures f == Failed <==> ride.None? || inv.InvokeError?
    ensures f.AutoAssignAfter? <==> ride.Some? && inv.Delivered? && |inv.response.Drivers()| > 0
    ensures f.AutoAssignAfter? ==>
              f.delayMs == AutoAssignDelayMs && f.driver == inv.response.Drivers()[0] && f.ride == ride.value
    ensures f.RetryAfter? <==>
              ride.Some? && inv.Delivered? && |inv.response.Drivers()| == 0 && attemptsSeen < MaxRetries
    ensures f.RetryAfter? ==> f.delayMs == RetryDelayMs
  {
    if ride.None? || inv.InvokeError? then Failed
    else if |inv.response.Drivers()| > 0 then AutoAssignAfter(AutoAssignDelayMs, inv.response.Drivers()[0], ride.value)
    else if attemptsSeen < MaxRetries then RetryAfter(RetryDelayMs)
    else NoDriversAvailable
  }

  /** The realtime handler: an update to `accepted` opens the active-ride screen, one to
      `cancelled` goes home, any other status leaves the screen where it is. */
  function RouteAfterStatus(status: RideStatus, rideId: string, current: Route): (r: Route)
    ensures status == Accepted ==> r == RideActive(rideId)
    ensures status == Cancelled ==> r == PassengerHome
    ensures status != Accepted && status != Cancelled ==> r == current
  {
    if status == Accepted then RideActive(rideId)
    else if status == Cancelled then PassengerHome
    else current
  }

  class MatchingScreen {
    /** The ride id passed in the route state. */
    const rideId: string
    var loading: bool
    var drivers: seq<Candidate>
    var rideDetails: Option<RideRow>
    var matchAttempts: nat
    var route: Route

    constructor (rideId: string)
      ensures this.rideId == rideId
      ensures loading && drivers == [] && rideDetails == None && matchAttempts == 0 && route == OnMatching
    {
      this.rideId := rideId;
      loading := true;
      drivers := [];
      rideDetails := None;
      matchAttempts := 0;
      route := OnMatching;
    }

    /** `loadRideAndMatch`, reading the counter's current value. It sends `request` when the
        ride is found. After an empty reply the counter goes up by one; the spinner stays only
        while a retry is pending. */
    method LoadRideAndMatch(table: RidesTable, inv: Invocation) returns (request: Option<MatchRequest>, next: Followup)
      modifies this`loading, this`drivers, this`rideDetails, this`matchAttempts
      ensures var ride := RideById(table.rows, rideId);
              && request == (if ride.Some? then Some(MatchRequestFor(ride.value)) else None)
              && next == MatchDecision(ride, inv, old(matchAttempts))
              && rideDetails == (if ride.Some? then ride else old(rideDetails))
              && drivers == (if next.AutoAssignAfter? then inv.response.Drivers() else old(drivers))
              && matchAttempts == (if next.RetryAfter? || next.NoDriversAvailable? then old(matchAttempts) + 1
                                   else old(matchAttempts))
              && loading == (if next.RetryAfter? then old(loading) else false)
      ensures table.Valid() && RideById(table.rows, rideId).Some? ==> rideDetails.value.id == rideId
    {
      var ride := RideById(table.rows, rideId);
      request := if ride.Some? then Some(MatchRequestFor(ride.value)) else None;
      next := MatchDecision(ride, inv, matchAttempts);
      if ride.Some? {
        rideDetails := ride;
      }
      match next
      case AutoAssignAfter(_, _, _) =>
        drivers := inv.response.Drivers();
        loading := false;
      case RetryAfter(_) =>
        matchAttempts := matchAttempts + 1;
      case NoDriversAvailable =>
        matchAttempts := matchAttempts + 1;
        loading := false;
      case Failed =>
        loading := false;
    }

    /** On mount: without a ride id go home and schedule nothing, otherwise load and match. */
    method Mount(table: RidesTable, inv: Invocation) returns (request: Option<MatchRequest>, next: Option<Followup>)
      modifies this`loading, this`drivers, this`rideDetails, this`matchAttempts, this`route
      ensures rideId == "" ==>
                && request.None? && next.None? && route == PassengerHome
                && loading == old(loading) && drivers == old(drivers)
                && rideDetails == old(rideDetails) && matchAttempts == old(matchAttempts)
      ensures rideId != "" ==>
                var ride := RideById(table.rows, rideId);
                && route == old(route)
                && request == (if ride.Some? then Some(MatchRequestFor(ride.value)) else None)
                && next.Some? && next.value == MatchDecision(ride, inv, old(matchAttempts))
                && rideDetails == (if ride.Some? then ride else old(rideDetails))
                && drivers == (if next.value.AutoAssignAfter? then inv.response.Drivers() else old(drivers))
                && matchAttempts == (if next.value.RetryAfter? || next.value.NoDriversAvailable?
                                     then old(matchAttempts) + 1 else old(matchAttempts))
                && loading == (if next.value.RetryAfter? then old(loading) else false)
    {
      if rideId == "" {
        route := PassengerHome;
        request := None;
        next := None;
      } else {
        var f;
        request, f := LoadRideAndMatch(table, inv);
        next := Some(f);
      }
    }

    /** `autoAssignDriver`, keyed by the id of the ride the timer captured; the ride's status is
        not consulted. */
    method AutoAssignDriver(table: RidesTable, driver: Candidate, ride: RideRow, now: Timestamp, writeOk: bool)
      requires table.Valid()
      modifies table, this`route
      ensures table.Valid()
      ensures table.rows == if writeOk
                            then UpdateWhereId(old(table.rows), ride.id,
                                               r => AssignPatch(r, driver.driverId, driver.vehicleId, now))
                            else old(table.rows)
      ensures route == if writeOk then RideActive(ride.id) else old(route)
    {
      if writeOk {
        table.AssignDriver(ride.id, driver.driverId, driver.vehicleId, now);
        route := RideActive(ride.id);
      }
    }

    /** `handleCancel`, keyed by the route's ride id; `userId` is the signed-in user, if any.
        No pending auto-assign is cleared. */
    method HandleCancel(table: RidesTable, now: Timestamp, userId: Option<string>, writeOk: bool)
      requires table.Valid()
      modifies table, this`route
      ensures table.Valid()
      ensures table.rows == if writeOk then UpdateWhereId(old(table.rows), rideId, r => CancelPatch(r, now, userId))
                            else old(table.rows)
      ensures route == if writeOk then PassengerHome else old(route)
    {
      if writeOk {
        table.Cancel(rideId, now, userId);
        route := PassengerHome;
      }
    }

    /** A realtime `UPDATE` to this ride with the given new status. */
    method OnRideStatusChange(status: RideStatus)
      modifies this`route
      ensures route == RouteAfterStatus(status, rideId, old(route))
    {
      route := RouteAfterStatus(status, rideId, route);
    }
  }

  // ---- What the decisions guarantee ----

  /** A reply with drivers schedules the auto-assign to its first driver, who is the top of
      the ranking `match-driver` returned. */
  lemma AutoAssignTargetsTop(ride: RideRow, resp: MatchResponse, attempts: nat)
    requires resp.Ranked? && |resp.availableDrivers| > 0
    ensures MatchDecision(Some(ride), InvocationOf(resp), attempts)
            == AutoAssignAfter(AutoAssignDelayMs, resp.availableDrivers[0], ride)
  {
  }

  /** A `success: false` reply is treated as an empty list: it retries or gives up, never fails. */
  lemma NoVehiclesRetries(ride: RideRow, message: string, attempts: nat)
    ensures MatchDecision(Some(ride), InvocationOf(NoVehicles(message)), attempts)
            == if attempts < MaxRetries then RetryAfter(RetryDelayMs) else NoDriversAvailable
  {
  }

  /** A 500 reply from `match-driver` ends the search without scheduling anything. */
  lemma ErrorSchedulesNothing(ride: Option<RideRow>, status: int, message: string, attempts: nat)
    ensures MatchDecision(ride, InvocationOf(MatchFailed(status, message)), attempts) == Failed
  {
  }

  /** Which `matchAttempts` value a call of a retry chain reads: the arrow captured on the
      first render, or the counter's current value. */
  datatype CounterRead = StaleClosure | CurrentState

  /** The value the k-th call of a chain (k = 0 is the call from mount) reads after k empty
      replies. The chain's timers call `loadRideAndMatch` of the first render, whose
      `matchAttempts` is the initial 0. */
  function SeenAttempts(read: CounterRead, k: nat): nat
  {
    if read == StaleClosure then 0 else k
  }

  /** The number of `loadRideAndMatch` calls made from the k-th on, when every lookup finds
      `ride` and every reply is `inv` with no drivers, cut off after `fuel` calls. */
  function ChainCalls(read: CounterRead, ride: RideRow, inv: Invocation, k: nat, fuel: nat): (n: nat)
    requires inv.Delivered? && |inv.response.Drivers()| == 0
    ensures n <= fuel
    decreases fuel
  {
    if fuel == 0 then 0
    else if MatchDecision(Some(ride), inv, SeenAttempts(read, k)).RetryAfter?
    then 1 + ChainCalls(read, ride, inv, k + 1, fuel - 1)
    else 1
  }

  /** As written: the chain never gives up, whatever bound is put on it. */
  lemma {:induction false} StaleChainNeverStops(ride: RideRow, inv: Invocation, k: nat, fuel: nat)
    requires inv.Delivered? && |inv.response.Drivers()| == 0
    ensures ChainCalls(StaleClosure, ride, inv, k, fuel) == fuel
    decreases fuel
  {
    if fuel > 0 {
      StaleChainNeverStops(ride, inv, k + 1, fuel - 1);
    }
  }

  /** Reading the current counter, the chain from mount makes the first call and three
      retries and then shows "No drivers available". */
  lemma {:induction false} CurrentChainStopsAfterThreeRetries(ride: RideRow, inv: Invocation, k: nat, fuel: nat)
    requires inv.Delivered? && |inv.response.Drivers()| == 0
    requires k <= MaxRetries
    ensures ChainCalls(CurrentState, ride, inv, k, fuel) == if fuel < MaxRetries + 1 - k then fuel else MaxRetries + 1 - k
    decreases fuel
  {
    if fuel > 0 && k < MaxRetries {
      CurrentChainStopsAfterThreeRetries(ride, inv, k + 1, fuel - 1);
    }
  }

  /** The last call of the bounded chain ends on the no-drivers screen with the counter at 4. */
  lemma CurrentChainEndsWithNoDrivers(ride: RideRow, inv: Invocation)
    requires inv.Delivered? && |inv.response.Drivers()| == 0
    ensures MatchDecision(Some(ride), inv, SeenAttempts(CurrentState, MaxRetries)) == NoDriversAvailable
    ensures forall k :: 0 <= k < MaxRetries ==>
              MatchDecision(Some(ride), inv, SeenAttempts(CurrentState, k)) == RetryAfter(RetryDelayMs)
  {
  }

  /** A cancel that lands while the auto-assign timer is pending is overwritten when the timer
      fires: the stored ride ends up accepted by that driver. */
  lemma PendingAssignOverridesCancel(rows: map<string, RideRow>, driver: Candidate, ride: RideRow,
                                     t1: Timestamp, t2: Timestamp, userId: Option<string>)
    requires ride.id in rows
    ensures var after := UpdateWhereId(UpdateWhereId(rows, ride.id, r => CancelPatch(r, t1, userId)), ride.id,
                                       r => AssignPatch(r, driver.driverId, driver.vehicleId, t2));
            after[ride.id].status == Accepted && after[ride.id].driverId == Some(driver.driverId) &&
            after[ride.id].cancelledAt == Some(t1)
  {
  }
}
