/** The database types the dispatch code reads and writes: the `rides` row and the
    `ride_status` and `vehicle_type` enumerations of the generated schema. */
module Schema {
  import opened Common

  datatype VehicleType = Bike | Auto | Car

  /** The six-value `ride_status` enumeration of the persisted schema. */
  datatype RideStatus = Requested | Matched | Accepted | InProgress | Completed | Cancelled

  /** One row of the `rides` table, column for column; nullable columns are `Option`s. */
  datatype RideRow = RideRow(
    id: string,
    passengerId: string,
    driverId: Option<string>,
    vehicleId: Option<string>,
    vehicleType: VehicleType,
    status: RideStatus,
    pickupAddress: string,
    pickupLatitude: real,
    pickupLongitude: real,
    dropoffAddress: string,
    dropoffLatitude: real,
    dropoffLongitude: real,
    isShared: Option<bool>,
    specialInstructions: Option<string>,
    estimatedDistance: Option<real>,
    estimatedDuration: Option<real>,
    estimatedFare: Option<real>,
    finalFare: Option<real>,
    surgeMultiplier: Option<real>,
    cancellationReason: Option<string>,
    cancelledAt: Option<Timestamp>,
    cancelledBy: Option<string>,
    createdAt: Timestamp,
    requestedAt: Timestamp,
    acceptedAt: Option<Timestamp>,
    startedAt: Option<Timestamp>,
    completedAt: Option<Timestamp>,
    updatedAt: Timestamp)
}
