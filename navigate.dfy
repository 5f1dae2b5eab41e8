/** The driver's navigation screen: it loads the ride, renders Start Trip for an accepted
    ride and Complete Trip for one in progress, and issues the matching write. */
module DriverNavigate {
  import opened Common
  import opened Schema
  import opened RideWrites

  /** The action button rendered under the trip details. */
  datatype TripAction = StartTripButton | CompleteTripButton | NoButton

  datatype Route = OnNavigate | DriverHome

  /** Start is offered only for an accepted ride, Complete only for one in progress. */
  function OfferedAction(status: RideStatus): (a: TripAction)
    ensures a == StartTripButton <==> status == Accepted
    ensures a == CompleteTripButton <==> status == InProgress
  {
    if status == Accepted then StartTripButton
    else if status == InProgress then CompleteTripButton
    else NoButton
  }

  /** The buttons lead from accepted to in progress to completed, and offer nothing after. */
  lemma ButtonPath(r: RideRow, t1: Timestamp, t2: Timestamp)
    requires r.status == Accepted
    ensures OfferedAction(r.status) == StartTripButton
    ensures OfferedAction(StartPatch(r, t1).status) == CompleteTripButton
    ensures OfferedAction(CompletePatch(StartPatch(r, t1), t2, r.estimatedFare).status) == NoButton
    ensures CompletePatch(StartPatch(r, t1), t2, r.estimatedFare).status == Completed
  {
  }

  /** No button is offered before acceptance or once the ride is over. */
  lemma NoButtonOutsideTrip(status: RideStatus)
    requires status in {Requested, Matched, Completed, Cancelled}
    ensures OfferedAction(status) == NoButton
  {
  }

  class NavigateScreen {
    /** The ride id passed in the route state. */
    const rideId: string
    /** The screen's copy of the ride, `null` until loaded. */
    var ride: Option<RideRow>
    var route: Route

    constructor (rideId: string)
      ensures this.rideId == rideId && ride == None && route == OnNavigate
    {
      this.rideId := rideId;
      ride := None;
      route := OnNavigate;
    }

    /** On mount: without a ride id go home, otherwise load the ride (a failed load leaves
        the screen on its spinner). */
    method Mount(table: RidesTable)
      modifies this
      ensures rideId == "" ==> route == DriverHome && ride == old(ride)
      ensures rideId != "" ==> route == old(route) &&
                               ride == (if RideById(table.rows, rideId).Some? then RideById(table.rows, rideId) else old(ride))
      ensures table.Valid() && rideId != "" && RideById(table.rows, rideId).Some? ==> ride.value.id == rideId
    {
      if rideId == "" {
        route := DriverHome;
      } else if rideId in table.rows {
        ride := Some(table.rows[rideId]);
      }
    }

    /** `handleStartTrip`. The update is keyed by the route's ride id only and carries no status
        condition; on success the local copy gets the new status and nothing else. */
    method HandleStartTrip(table: RidesTable, now: Timestamp, writeOk: bool)
      requires ride.Some?
      requires table.Valid()
      modifies this`ride, table
      ensures table.Valid()
      ensures table.rows == if writeOk then UpdateWhereId(old(table.rows), rideId, r => StartPatch(r, now))
                            else old(table.rows)
      ensures ride == if writeOk then Some(old(ride.value).(status := InProgress)) else old(ride)
    {
      if writeOk {
        table.StartTrip(rideId, now);
        ride := Some(ride.value.(status := InProgress));
      }
    }

    /** `handleCompleteTrip`: the final fare is the screen's copy of the estimated fare. */
    method HandleCompleteTrip(table: RidesTable, now: Timestamp, writeOk: bool)
      requires ride.Some?
      requires table.Valid()
      modifies this`route, table
      ensures table.Valid()
      ensures var fare := old(ride.value.estimatedFare);
              table.rows == if writeOk then UpdateWhereId(old(table.rows), rideId, r => CompletePatch(r, now, fare))
                            else old(table.rows)
      ensures route == if writeOk then DriverHome else old(route)
    {
      if writeOk {
        table.CompleteTrip(rideId, now, ride.value.estimatedFare);
        route := DriverHome;
      }
    }

    /** A press of whichever button the current local status renders. */
    method PressOfferedButton(table: RidesTable, now: Timestamp, writeOk: bool)
      requires ride.Some?
      requires table.Valid()
      modifies this`ride, this`route, table
      ensures table.Valid()
      ensures old(ride.value.status) !in {Accepted, InProgress} || !writeOk ==>
                table.rows == old(table.rows) && ride == old(ride) && route == old(route)
      ensures old(ride.value.status) == Accepted && writeOk ==>
                table.rows == UpdateWhereId(old(table.rows), rideId, r => StartPatch(r, now)) &&
                ride == Some(old(ride.value).(status := InProgress)) && route == old(route)
      ensures var fare := old(ride.value.estimatedFare);
              old(ride.value.status) == InProgress && writeOk ==>
                table.rows == UpdateWhereId(old(table.rows), rideId, r => CompletePatch(r, now, fare)) &&
                ride == old(ride) && route == DriverHome
    {
      match OfferedAction(ride.value.status)
      case StartTripButton => HandleStartTrip(table, now, writeOk);
      case CompleteTripButton => HandleCompleteTrip(table, now, writeOk);
      case NoButton =>
    }
  }
}
