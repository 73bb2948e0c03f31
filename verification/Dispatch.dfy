/**
 * Whole ride and driver calls, one at a time: pooling limits, the active-ride
 * pointer, timestamps and the online flag (src/rides/rides.service.ts,
 * src/drivers/drivers.service.ts).
 */
module Dispatch {
  import opened Prelude
  import opened Fleet
  import opened Money
  import opened Ledger
  import opened Books
  import opened Rides

  datatype Vehicle = Vehicle(owner: DriverId, kind: VehicleType, isActive: bool)

  datatype World = World(
    now: int,
    rides: map<RideId, Ride>,
    nextRide: RideId,
    books: Books,
    vehicles: map<VehicleId, Vehicle>,
    activeRide: map<DriverId, RideId>)

  type Answer = Result<World, RideError>

  // ----- ride calls -----

  function CreateRide(w: World, user: UserId, hundredthsKm: nat, category: RideCategory): Answer {
    if user !in w.books.riders then Failure(NotFound)
    else if w.books.riders[user].isBlocked then Failure(Forbidden)
    else
      Success(w.(
        rides := w.rides[w.nextRide := NewRide(user, hundredthsKm, category, w.now)],
        nextRide := w.nextRide + 1))
  }

  /** The checks of acceptRide on the ride, the driver and the vehicle. */
  function PartyError(w: World, ride: RideId, driver: DriverId, vehicle: VehicleId): Option<RideError> {
    if ride !in w.rides then Some(NotFound)
    else if w.rides[ride].status != Requested then Some(InvalidState)
    else if driver !in w.books.drivers || !w.books.drivers[driver].isActive || !w.books.drivers[driver].isOnline then
      Some(DriverUnavailable)
    else if vehicle !in w.vehicles || w.vehicles[vehicle].owner != driver || !w.vehicles[vehicle].isActive then
      Some(BadVehicle)
    else if !VehicleTypeMatchesCategory(w.vehicles[vehicle].kind, w.rides[ride].category) then Some(WrongVehicleType)
    else None
  }

  /** All the checks of acceptRide, in order. */
  function AcceptError(w: World, ride: RideId, driver: DriverId, vehicle: VehicleId): Option<RideError> {
    var party := PartyError(w, ride, driver, vehicle);
    if party.Some? then party else LoadError(w.rides, driver, w.rides[ride].category)
  }

  function AcceptRide(w: World, ride: RideId, driver: DriverId, vehicle: VehicleId): Answer {
    var error := AcceptError(w, ride, driver, vehicle);
    if error.Some? then Failure(error.value)
    else Success(w.(
      rides := w.rides[ride := AcceptedBy(w.rides[ride], driver, vehicle, w.now)],
      activeRide := w.activeRide[driver := ride]))
  }

  function SaveRow(w: World, ride: RideId, changed: Result<Ride, RideError>): Answer {
    match changed
    case Success(row) => Success(w.(rides := w.rides[ride := row]))
    case Failure(error) => Failure(error)
  }

  function MarkArrived(w: World, ride: RideId, driver: DriverId): Answer {
    if ride !in w.rides then Failure(NotFound) else SaveRow(w, ride, ArrivedRow(w.rides[ride], driver))
  }

  function StartRide(w: World, ride: RideId, driver: DriverId): Answer {
    if ride !in w.rides then Failure(NotFound) else SaveRow(w, ride, StartedRow(w.rides[ride], driver, w.now))
  }

  function CompleteRide(w: World, ride: RideId, driver: DriverId): Answer {
    if ride !in w.rides then Failure(NotFound)
    else
      var row := w.rides[ride];
      if row.driver != Some(driver) then Failure(Forbidden)
      else if row.status == RideCompleted then Success(w)
      else if row.status != InProgress then Failure(InvalidState)
      else if driver !in w.books.drivers || row.user !in w.books.riders then Failure(NotFound)
      else
        var settled := SettleFare(w.books, ride, driver, row.user, row.estimatedFare, w.now);
        if settled.None? then Failure(DuplicatePayout)
        else Success(w.(
          rides := w.rides[ride := FinishedRow(row, w.now)],
          books := settled.value,
          activeRide := w.activeRide - {driver}))
  }

  function CancelRide(w: World, ride: RideId, who: Canceller): Answer {
    if ride !in w.rides then Failure(NotFound)
    else
      match CancelledRow(w.rides[ride], who)
      case Failure(error) => Failure(error)
      case Success(row) =>
        Success(w.(
          rides := w.rides[ride := row],
          activeRide := if row.driver.Some? then w.activeRide - {row.driver.value} else w.activeRide))
  }

  // ----- driver calls -----

  function WithDriver(w: World, driver: DriverId, row: Driver): World {
    w.(books := w.books.(drivers := w.books.drivers[driver := row]))
  }

  function UpdateOnlineStatus(w: World, driver: DriverId, isOnline: bool): Answer {
    if driver !in w.books.drivers then Failure(NotFound)
    else
      var row := w.books.drivers[driver];
      if isOnline && (row.verification != Approved || !row.isActive) then Failure(InvalidState)
      else Success(WithDriver(w, driver, row.(isOnline := isOnline)))
  }

  function UpdateVerificationStatus(w: World, driver: DriverId, status: Verification): Answer {
    if driver !in w.books.drivers then Failure(NotFound)
    else
      var row := w.books.drivers[driver].(verification := status);
      Success(WithDriver(w, driver, if status != Approved then row.(isOnline := false) else row))
  }

  function UpdateActiveStatus(w: World, driver: DriverId, isActive: bool): Answer {
    if driver !in w.books.drivers then Failure(NotFound)
    else
      var row := w.books.drivers[driver].(isActive := isActive);
      Success(WithDriver(w, driver, if !isActive then row.(isOnline := false) else row))
  }

  /** A new driver row: pending review, or approved at once through Privy. */
  function NewDriver(approved: bool): Driver {
    Driver(if approved then Approved else PendingReview, false, true, 0, 0)
  }

  // ----- runs -----

  datatype Call =
    | Create(user: UserId, hundredthsKm: nat, category: RideCategory)
    | Accept(ride: RideId, driver: DriverId, vehicle: VehicleId)
    | Arrive(ride: RideId, driver: DriverId)
    | Start(ride: RideId, driver: DriverId)
    | Complete(ride: RideId, driver: DriverId)
    | Cancel(ride: RideId, who: Canceller)
    | SetOnline(driver: DriverId, isOnline: bool)
    | SetVerification(driver: DriverId, status: Verification)
    | SetActive(driver: DriverId, isActive: bool)
    | Register(driver: DriverId, approved: bool)
    | AddVehicle(id: VehicleId, details: Vehicle)
    | AddRider(user: UserId, isBlocked: bool)
    | PointerExpires(driver: DriverId)
    | Wait(ms: nat)

  function Do(w: World, call: Call): Answer {
    match call
    case Create(user, km, category) => CreateRide(w, user, km, category)
    case Accept(ride, driver, vehicle) => AcceptRide(w, ride, driver, vehicle)
    case Arrive(ride, driver) => MarkArrived(w, ride, driver)
    case Start(ride, driver) => StartRide(w, ride, driver)
    case Complete(ride, driver) => CompleteRide(w, ride, driver)
    case Cancel(ride, who) => CancelRide(w, ride, who)
    case SetOnline(driver, isOnline) => UpdateOnlineStatus(w, driver, isOnline)
    case SetVerification(driver, status) => UpdateVerificationStatus(w, driver, status)
    case SetActive(driver, isActive) => UpdateActiveStatus(w, driver, isActive)
    case Register(driver, approved) =>
      Success(if driver in w.books.drivers then w else WithDriver(w, driver, NewDriver(approved)))
    case AddVehicle(id, details) => Success(w.(vehicles := w.vehicles[id := details]))
    case AddRider(user, isBlocked) =>
      Success(if user in w.books.riders then w
              else w.(books := w.books.(riders := w.books.riders[user := Rider(isBlocked, 0)])))
    case PointerExpires(driver) => Success(w.(activeRide := w.activeRide - {driver}))
    case Wait(ms) => Success(w.(now := w.now + ms))
  }

  /** A refused call changes nothing. */
  function Outcome(w: World, answer: Answer): World {
    if answer.Success? then answer.value else w
  }

  function Run(w: World, calls: seq<Call>): World {
    if calls == [] then w
    else
      var before := Run(w, calls[..|calls| - 1]);
      Outcome(before, Do(before, calls[|calls| - 1]))
  }

  const EMPTY := World(0, map[], 0, Books(map[], map[], []), map[], map[])

  // ----- the breakdown both parties see -----

  /** The first entry of a ride with the given type. */
  function AmountFor(entries: Entries, ride: RideId, kind: EntryType): int {
    if entries == [] then 0
    else if entries[0].rideId == Some(ride) && entries[0].kind == kind then entries[0].amount
    else AmountFor(entries[1..], ride, kind)
  }

  /** Settled rides show the ledger; the others the split of their estimate. */
  function GetFareBreakdown(w: World, ride: RideId): FareSplit
    requires ride in w.rides
  {
    var row := w.rides[ride];
    if row.status == RideCompleted then
      FareSplit(if row.finalFare.Some? then row.finalFare.value else 0,
                AmountFor(w.books.entries, ride, RideFareDriver),
                AmountFor(w.books.entries, ride, RideFarePlatform),
                AmountFor(w.books.entries, ride, RideFareRiderCashback))
    else SplitFareKobo(ToNaira(row.estimatedFare))
  }
}
