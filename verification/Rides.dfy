/** One ride row: who may move it where (src/rides/rides.service.ts). */
module Rides {
  import opened Prelude
  import opened Fleet
  import opened Money

  type VehicleId = nat

  datatype RideStatus = Requested | Accepted | Arrived | InProgress | RideCompleted | RideCancelled

  datatype Ride = Ride(
    user: nat,
    driver: Option<nat>,
    vehicle: Option<VehicleId>,
    category: RideCategory,
    estimatedFare: int,
    finalFare: Option<int>,
    status: RideStatus,
    requestedAt: int,
    acceptedAt: Option<int>,
    startedAt: Option<int>,
    completedAt: Option<int>,
    cancellationReason: Option<string>)
  {
    /** The driver is serving it. */
    predicate Active() { status == Accepted || status == Arrived || status == InProgress }

    predicate Over() { status == RideCompleted || status == RideCancelled }
  }

  datatype RideError =
    | NotFound
    | Forbidden
    | InvalidState
    | Locked
    | DriverUnavailable
    | BadVehicle
    | WrongVehicleType
    | OnExclusiveRide
    | NotFree
    | PoolFull
    | DuplicatePayout

  /** Who cancels, and the reason given, if any: the rider, the driver (who owes one), or an administrator. */
  datatype Canceller =
    | ByRider(user: nat, reason: string)
    | ByDriver(driver: nat, reason: string)
    | ByAdmin(reason: string)

  function NewRide(user: nat, hundredthsKm: nat, category: RideCategory, now: int): Ride {
    var fare := ToKobo(CalculateFare(hundredthsKm, category));
    Ride(user, None, None, category, fare, None, Requested, now, None, None, None, None)
  }

  function AcceptedBy(ride: Ride, driver: nat, vehicle: VehicleId, now: int): Ride {
    ride.(driver := Some(driver), vehicle := Some(vehicle), status := Accepted, acceptedAt := Some(now))
  }

  function ArrivedRow(ride: Ride, driver: nat): Result<Ride, RideError> {
    if ride.driver != Some(driver) then Failure(Forbidden)
    else if ride.status != Accepted then Failure(InvalidState)
    else Success(ride.(status := Arrived))
  }

  function StartedRow(ride: Ride, driver: nat, now: int): Result<Ride, RideError> {
    if ride.driver != Some(driver) then Failure(Forbidden)
    else if ride.status != Arrived then Failure(InvalidState)
    else Success(ride.(status := InProgress, startedAt := Some(now)))
  }

  function CancelledRow(ride: Ride, who: Canceller): Result<Ride, RideError> {
    if ride.status == RideCompleted then Failure(InvalidState)
    else if who.ByRider? && (ride.user != who.user || ride.status == InProgress) then Failure(Forbidden)
    else if who.ByDriver? && (ride.driver != Some(who.driver) || who.reason == "") then Failure(Forbidden)
    else Success(ride.(status := RideCancelled, cancellationReason := Some(ReasonText(who))))
  }

  function ReasonText(who: Canceller): string {
    if who.reason == "" then "Cancelled by user" else who.reason
  }

  function FinishedRow(ride: Ride, now: int): Ride {
    ride.(finalFare := Some(ride.estimatedFare), status := RideCompleted, completedAt := Some(now))
  }

  // ----- a driver's load -----

  function ActiveRides(rides: map<nat, Ride>, driver: nat): set<nat> {
    set r | r in rides && rides[r].driver == Some(driver) && rides[r].Active()
  }

  /** Why a driver with these rides may not take one more of the category, in the order of acceptRide's checks. */
  function LoadError(rides: map<nat, Ride>, driver: nat, category: RideCategory): Option<RideError> {
    var active := ActiveRides(rides, driver);
    if exists r :: r in active && IsExclusiveCategory(rides[r].category) then Some(OnExclusiveRide)
    else if IsExclusiveCategory(category) && |active| > 0 then Some(NotFree)
    else if category == Shared && |active| >= MAX_ACTIVE_SHARED_RIDES then Some(PoolFull)
    else None
  }

  lemma NewRideFareIsPositive(user: nat, hundredthsKm: nat, category: RideCategory, now: int)
    ensures NewRide(user, hundredthsKm, category, now).estimatedFare >= 25_000
  {
  }
}
