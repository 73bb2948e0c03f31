/**
 * Ride and wallet calls running at the same time.
 *
 * One transaction, statement or Redis command is one step. accept, arrived,
 * start and cancel read a ride row, and later save the whole row they read;
 * updates of a driver's profile or flags, and sign-ins through Privy, do the
 * same to a driver or rider row. Redis locks may expire at any
 * step, and any call may stop for good between steps. A disabled step changes
 * nothing.
 */
module Platform {
  import opened Prelude
  import opened Fleet
  import opened Ledger
  import opened Books
  import opened Rides

  type CallId = nat

  datatype RideCall =
    | AcceptLocked(ride: RideId, driver: DriverId, vehicle: VehicleId)
    | AcceptLoaded(ride: RideId, row: Ride, driver: DriverId, vehicle: VehicleId)   // about to check the load
    | AcceptReady(ride: RideId, row: Ride)    // validated; about to save the row
    | Saving(ride: RideId, row: Ride)         // arrived, start or cancel; about to save the row
    | CompleteLocked(ride: RideId, driver: DriverId)
    | Releasing(ride: RideId)                 // in `finally`: about to DEL the lock
    | Done

  /** A wallet call past its first phase, waiting for the gateway; filed under its ledger entry. */
  datatype Request = Fuel(driver: DriverId, amount: real) | Payout(driver: DriverId, amount: real)

  datatype GatewayAnswer = Confirmed | Processing | Refused

  /** What a call that saves a whole driver or rider row read of the money columns it will write back. */
  datatype MoneyCopy =
    | ProfileCopy(driver: DriverId, walletBalance: int, totalCompletedRides: int)
    | RiderCopy(rider: UserId, cashbackBalance: int)

  /** `accepted` and `settled` are history: rides in the order their accept was saved, or their fare settled. */
  datatype State = State(
    now: int,
    dailyLimit: nat,
    rides: map<RideId, Ride>,
    nextRide: RideId,
    books: Books,
    locks: map<RideId, CallId>,
    calls: map<CallId, RideCall>,
    pending: map<nat, Request>,
    copies: map<CallId, MoneyCopy>,
    accepted: seq<RideId>,
    settled: seq<RideId>)

  datatype Step =
    | CreateRide(user: UserId, hundredthsKm: nat, category: RideCategory)
    | AcceptLock(c: CallId, ride: RideId, driver: DriverId, vehicle: VehicleId)
    | AcceptLoad(c: CallId, valid: bool)      // `valid`: driver and vehicle checks passed
    | AcceptCheck(c: CallId)
    | AcceptSave(c: CallId)
    | MarkArrived(c: CallId, ride: RideId, driver: DriverId)
    | StartRide(c: CallId, ride: RideId, driver: DriverId)
    | CancelRide(c: CallId, ride: RideId, who: Canceller)
    | SaveRow(c: CallId)
    | CompleteLock(c: CallId, ride: RideId, driver: DriverId)
    | CompleteRun(c: CallId)
    | Release(c: CallId)
    | LockExpires(ride: RideId)
    | Stop(c: CallId)
    | RequestFuel(driver: DriverId, amount: real)
    | RequestPayout(driver: DriverId, amount: real)
    | Answer(id: nat, answer: GatewayAnswer)
    | StopRequest(id: nat)
    | LoadProfile(c: CallId, driver: DriverId)
    | LoadRider(c: CallId, rider: UserId)
    | SaveCopy(c: CallId)
    | Tick(ms: nat)

  const MIN_FUEL := 100.0
  const MIN_PAYOUT := 500.0

  function Goto(s: State, c: CallId, call: RideCall): State {
    s.(calls := s.calls[c := call])
  }

  /** SET NX of the ride lock, then the call goes on; or the call is refused. */
  function TakeLock(s: State, c: CallId, ride: RideId, call: RideCall): State {
    if c !in s.calls && ride !in s.locks then Goto(s, c, call).(locks := s.locks[ride := c]) else s
  }

  function LoadForAccept(s: State, c: CallId, call: RideCall, valid: bool): State
    requires call.AcceptLocked?
  {
    if valid && call.ride in s.rides && s.rides[call.ride].status == Requested then
      Goto(s, c, AcceptLoaded(call.ride, s.rides[call.ride], call.driver, call.vehicle))
    else Goto(s, c, Releasing(call.ride))
  }

  /** The driver's active rides are read on their own, after the ride row. */
  function CheckLoad(s: State, c: CallId, call: RideCall): State
    requires call.AcceptLoaded?
  {
    if LoadError(s.rides, call.driver, call.row.category).None? then
      Goto(s, c, AcceptReady(call.ride, AcceptedBy(call.row, call.driver, call.vehicle, s.now)))
    else Goto(s, c, Releasing(call.ride))
  }

  /** Read and check a row; save what comes of it in a later step. */
  function Load(s: State, c: CallId, ride: RideId, changed: Result<Ride, RideError>): State {
    if c !in s.calls && changed.Success? then Goto(s, c, Saving(ride, changed.value)) else s
  }

  function Save(s: State, ride: RideId, row: Ride): State {
    s.(rides := s.rides[ride := row])
  }

  /** The completion transaction; a failure anywhere in it changes nothing. */
  function Complete(s: State, ride: RideId, driver: DriverId): State {
    if ride !in s.rides then s
    else
      var row := s.rides[ride];
      if row.driver != Some(driver) || row.status != InProgress then s
      else
        var settled := SettleFare(s.books, ride, driver, row.user, row.estimatedFare, s.now);
        if settled.None? then s
        else Save(s, ride, FinishedRow(row, s.now)).(books := settled.value, settled := s.settled + [ride])
  }

  function Reserve(s: State, reserved: Option<Books>, request: Request): State {
    if reserved.None? then s
    else s.(books := reserved.value, pending := s.pending[|s.books.entries| := request])
  }

  /** Settle or reverse, as the gateway answered. */
  function Answered(s: State, id: nat, request: Request, answer: GatewayAnswer): State {
    var books := match answer
      case Refused =>
        ReverseBalance(s.books, request.driver, if request.Fuel? then -request.amount else request.amount, id)
      case Confirmed => s.books.(entries := SettleEntry(s.books.entries, id, Completed))
      case Processing =>
        s.books.(entries := SettleEntry(s.books.entries, id, if request.Fuel? then Completed else Pending));
    s.(books := books, pending := s.pending - {id})
  }

  function WriteCopy(books: Books, copy: MoneyCopy): Books {
    match copy
    case ProfileCopy(driver, walletBalance, totalCompletedRides) =>
      if driver !in books.drivers then books
      else
        var row := books.drivers[driver].(walletBalance := walletBalance, totalCompletedRides := totalCompletedRides);
        books.(drivers := books.drivers[driver := row])
    case RiderCopy(rider, cashbackBalance) =>
      if rider !in books.riders then books
      else books.(riders := books.riders[rider := books.riders[rider].(cashbackBalance := cashbackBalance)])
  }

  function Next(s: State, step: Step): State {
    match step
    case CreateRide(user, km, category) =>
      s.(rides := s.rides[s.nextRide := NewRide(user, km, category, s.now)], nextRide := s.nextRide + 1)
    case AcceptLock(c, ride, driver, vehicle) => TakeLock(s, c, ride, AcceptLocked(ride, driver, vehicle))
    case AcceptLoad(c, valid) =>
      if c in s.calls && s.calls[c].AcceptLocked? then LoadForAccept(s, c, s.calls[c], valid) else s
    case AcceptCheck(c) => if c in s.calls && s.calls[c].AcceptLoaded? then CheckLoad(s, c, s.calls[c]) else s
    case AcceptSave(c) =>
      if c in s.calls && s.calls[c].AcceptReady? then
        var ride := s.calls[c].ride;
        Goto(Save(s, ride, s.calls[c].row), c, Releasing(ride)).(accepted := s.accepted + [ride])
      else s
    case MarkArrived(c, ride, driver) =>
      if ride in s.rides then Load(s, c, ride, ArrivedRow(s.rides[ride], driver)) else s
    case StartRide(c, ride, driver) =>
      if ride in s.rides then Load(s, c, ride, StartedRow(s.rides[ride], driver, s.now)) else s
    case CancelRide(c, ride, who) => if ride in s.rides then Load(s, c, ride, CancelledRow(s.rides[ride], who)) else s
    case SaveRow(c) =>
      if c in s.calls && s.calls[c].Saving? then Goto(Save(s, s.calls[c].ride, s.calls[c].row), c, Done) else s
    case CompleteLock(c, ride, driver) => TakeLock(s, c, ride, CompleteLocked(ride, driver))
    case CompleteRun(c) =>
      if c in s.calls && s.calls[c].CompleteLocked? then
        Goto(Complete(s, s.calls[c].ride, s.calls[c].driver), c, Releasing(s.calls[c].ride))
      else s
    case Release(c) =>
      if c in s.calls && s.calls[c].Releasing? then Goto(s, c, Done).(locks := s.locks - {s.calls[c].ride}) else s
    case LockExpires(ride) => s.(locks := s.locks - {ride})
    case Stop(c) => if c in s.calls then Goto(s, c, Done) else s
    case RequestFuel(driver, amount) =>
      if amount >= MIN_FUEL then
        Reserve(s, ReserveFuel(s.books, driver, amount, s.dailyLimit, s.now), Fuel(driver, amount))
      else s
    case RequestPayout(driver, amount) =>
      if amount >= MIN_PAYOUT then
        Reserve(s, DebitPayout(s.books, driver, amount, s.now), Payout(driver, amount))
      else s
    case Answer(id, answer) => if id in s.pending then Answered(s, id, s.pending[id], answer) else s
    case StopRequest(id) => s.(pending := s.pending - {id})
    case LoadProfile(c, driver) =>
      if c !in s.copies && driver in s.books.drivers then
        var row := s.books.drivers[driver];
        s.(copies := s.copies[c := ProfileCopy(driver, row.walletBalance, row.totalCompletedRides)])
      else s
    case LoadRider(c, rider) =>
      if c !in s.copies && rider in s.books.riders && !s.books.riders[rider].isBlocked then
        s.(copies := s.copies[c := RiderCopy(rider, s.books.riders[rider].cashbackBalance)])
      else s
    case SaveCopy(c) =>
      if c in s.copies then s.(books := WriteCopy(s.books, s.copies[c]), copies := s.copies - {c}) else s
    case Tick(ms) => s.(now := s.now + ms)
  }

  function Run(s: State, steps: seq<Step>): State {
    if steps == [] then s else Next(Run(s, steps[..|steps| - 1]), steps[|steps| - 1])
  }

  lemma Begin(s: State, step: Step)
    ensures Run(s, [step]) == Next(s, step)
  {
  }

  lemma Then(s: State, steps: seq<Step>, step: Step)
    ensures Run(s, steps + [step]) == Next(Run(s, steps), step)
  {
  }

  /** Some drivers and riders with empty wallets, and nothing else. */
  ghost predicate Initial(s: State) {
    && s.rides == map[] && s.locks == map[] && s.calls == map[] && s.pending == map[] && s.copies == map[]
    && s.accepted == [] && s.settled == [] && s.books.entries == []
    && (forall d :: d in s.books.drivers ==>
          s.books.drivers[d].walletBalance == 0 && s.books.drivers[d].totalCompletedRides == 0)
    && (forall r :: r in s.books.riders ==> s.books.riders[r].cashbackBalance == 0)
  }
}
