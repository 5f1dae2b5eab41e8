/** The `rides` table and the four lifecycle writes the screens issue against it. Each write is
    `supabase.from('rides').update(patch).eq('id', rideId)`: it patches the named columns of
    the row with that id, whatever that row's status, and does nothing when no row has it. */
module RideWrites {
  import opened Common
  import opened Schema

  const UserCancelledReason: string := "User cancelled"

  /** `.update(patch).eq('id', id)` on a table keyed by id. */
  function UpdateWhereId(rows: map<string, RideRow>, id: string, patch: RideRow -> RideRow): (r: map<string, RideRow>)
    ensures r.Keys == rows.Keys
    ensures forall k :: k in rows && k != id ==> r[k] == rows[k]
    ensures id in rows ==> r[id] == patch(rows[id])
  {
    if id in rows then rows[id := patch(rows[id])] else rows
  }

  /** `.from('rides').select('*').eq('id', id).single()`. */
  function RideById(rows: map<string, RideRow>, id: string): Option<RideRow>
  {
    if id in rows then Some(rows[id]) else None
  }

  /** Start trip: `{status: 'in_progress', started_at: now}`. */
  function StartPatch(r: RideRow, now: Timestamp): RideRow
  {
    r.(status := InProgress, startedAt := Some(now))
  }

  /** Complete trip: `{status: 'completed', completed_at: now, final_fare: fare}`, where the
      driver screen passes the estimated fare of its copy of the ride. */
  function CompletePatch(r: RideRow, now: Timestamp, finalFare: Option<real>): RideRow
  {
    r.(status := Completed, completedAt := Some(now), finalFare := finalFare)
  }

  /** Auto-assign: `{driver_id, vehicle_id, status: 'accepted', accepted_at: now}`. */
  function AssignPatch(r: RideRow, driverId: string, vehicleId: string, now: Timestamp): RideRow
  {
    r.(driverId := Some(driverId), vehicleId := Some(vehicleId), status := Accepted, acceptedAt := Some(now))
  }

  /** Cancel: `{status: 'cancelled', cancelled_at: now, cancelled_by: user?.id,
      cancellation_reason: 'User cancelled'}`. With no signed-in user the `cancelled_by` key is
      undefined, the JSON body omits it, and the column keeps its value. */
  function CancelPatch(r: RideRow, now: Timestamp, userId: Option<string>): RideRow
  {
    r.(status := Cancelled, cancelledAt := Some(now),
       cancelledBy := if userId.Some? then userId else r.cancelledBy,
       cancellationReason := Some(UserCancelledReason))
  }

  /** The `rides` table. */
  class RidesTable {
    var rows: map<string, RideRow>

    /** Every row is stored under its own id. */
    ghost predicate Valid()
      reads this
    {
      forall k :: k in rows ==> rows[k].id == k
    }

    constructor (initial: map<string, RideRow>)
      requires forall k :: k in initial ==> initial[k].id == k
      ensures Valid() && rows == initial
    {
      rows := initial;
    }

    method StartTrip(rideId: string, now: Timestamp)
      requires Valid()
      modifies this
      ensures Valid()
      ensures rows == UpdateWhereId(old(rows), rideId, r => StartPatch(r, now))
    {
      rows := UpdateWhereId(rows, rideId, r => StartPatch(r, now));
    }

    method CompleteTrip(rideId: string, now: Timestamp, finalFare: Option<real>)
      requires Valid()
      modifies this
      ensures Valid()
      ensures rows == UpdateWhereId(old(rows), rideId, r => CompletePatch(r, now, finalFare))
    {
      rows := UpdateWhereId(rows, rideId, r => CompletePatch(r, now, finalFare));
    }

    method AssignDriver(rideId: string, driverId: string, vehicleId: string, now: Timestamp)
      requires Valid()
      modifies this
      ensures Valid()
      ensures rows == UpdateWhereId(old(rows), rideId, r => AssignPatch(r, driverId, vehicleId, now))
    {
      rows := UpdateWhereId(rows, rideId, r => AssignPatch(r, driverId, vehicleId, now));
    }

    method Cancel(rideId: string, now: Timestamp, userId: Option<string>)
      requires Valid()
      modifies this
      ensures Valid()
      ensures rows == UpdateWhereId(old(rows), rideId, r => CancelPatch(r, now, userId))
    {
      rows := UpdateWhereId(rows, rideId, r => CancelPatch(r, now, userId));
    }
  }

  // ---- What the writes do and do not guarantee ----

  /** Driver and vehicle are both set or both unset. */
  predicate Paired(r: RideRow)
  {
    r.driverId.Some? <==> r.vehicleId.Some?
  }

  /** Each write keeps driver and vehicle paired; auto-assign sets both at once. */
  lemma WritesKeepPairing(r: RideRow, now: Timestamp, fare: Option<real>, userId: Option<string>,
                          driverId: string, vehicleId: string)
    requires Paired(r)
    ensures Paired(StartPatch(r, now)) && Paired(CompletePatch(r, now, fare)) && Paired(CancelPatch(r, now, userId))
    ensures Paired(AssignPatch(r, driverId, vehicleId, now))
    ensures AssignPatch(r, driverId, vehicleId, now).driverId == Some(driverId)
    ensures AssignPatch(r, driverId, vehicleId, now).vehicleId == Some(vehicleId)
  {
  }

  /** No write inspects the current status: each one sets its status from any status,
      including the terminal ones. */
  lemma WritesIgnoreStatus(r: RideRow, now: Timestamp, fare: Option<real>, userId: Option<string>,
                           driverId: string, vehicleId: string)
    ensures StartPatch(r, now).status == InProgress
    ensures CompletePatch(r, now, fare).status == Completed
    ensures AssignPatch(r, driverId, vehicleId, now).status == Accepted
    ensures CancelPatch(r, now, userId).status == Cancelled
  {
  }

  /** A cancel that lands before a pending auto-assign fires is undone by it: the ride is
      accepted again, and the cancellation columns stay filled in. */
  lemma AssignAfterCancelReopens(r: RideRow, t1: Timestamp, t2: Timestamp, userId: Option<string>,
                                 driverId: string, vehicleId: string)
    ensures var after := AssignPatch(CancelPatch(r, t1, userId), driverId, vehicleId, t2);
            after.status == Accepted &&
            after.cancelledAt == Some(t1) &&
            after.cancellationReason == Some(UserCancelledReason)
  {
  }

  /** Cancelling a completed ride succeeds and leaves its final fare set: the final fare is
      not confined to completed rides. */
  lemma CancelAfterCompleteKeepsFare(r: RideRow, t1: Timestamp, t2: Timestamp, fare: real, userId: Option<string>)
    ensures var after := CancelPatch(CompletePatch(r, t1, Some(fare)), t2, userId);
            after.status == Cancelled && after.finalFare == Some(fare) && after.completedAt == Some(t1)
  {
  }

  /** Starting then completing a ride changes exactly status, started_at, completed_at and
      final_fare, the last set to the estimate. */
  lemma TripWritesCompose(r: RideRow, t1: Timestamp, t2: Timestamp)
    ensures CompletePatch(StartPatch(r, t1), t2, r.estimatedFare)
            == r.(status := Completed, startedAt := Some(t1), completedAt := Some(t2), finalFare := r.estimatedFare)
  {
  }
}
