/** What every step of the platform keeps, whatever expires, stops or saves late. */
module PlatformBase {
  import opened Prelude
  import opened Fleet
  import opened Money
  import opened Ledger
  import opened Books
  import opened Rides
  import opened Platform

  /** A copy of a row has the rider, the category and the quote of the row. */
  ghost predicate CopyOk(rides: map<RideId, Ride>, ride: RideId, row: Ride) {
    && ride in rides
    && row.user == rides[ride].user && row.category == rides[ride].category
    && row.estimatedFare == rides[ride].estimatedFare
  }

  /** And a call never saves REQUESTED. */
  ghost predicate CallOk(rides: map<RideId, Ride>, call: RideCall) {
    && (call.AcceptLoaded? || call.AcceptReady? || call.Saving? ==> CopyOk(rides, call.ride, call.row))
    && (call.AcceptReady? || call.Saving? ==> call.row.status != Requested)
  }

  /** Row for row, the table only moves forward. */
  ghost predicate Forward(rides: map<RideId, Ride>, after: map<RideId, Ride>) {
    forall r :: r in rides ==>
      && r in after
      && after[r].user == rides[r].user && after[r].category == rides[r].category
      && after[r].estimatedFare == rides[r].estimatedFare
      && (after[r].status == Requested ==> rides[r].status == Requested)
  }

  ghost predicate RidesOk(s: State) {
    && (forall r :: r in s.rides ==> r < s.nextRide && s.rides[r].estimatedFare >= 0)
    && (forall c :: c in s.calls ==> CallOk(s.rides, s.calls[c]))
  }

  lemma GotoKeepsRides(s: State, c: CallId, call: RideCall)
    requires RidesOk(s) && CallOk(s.rides, call)
    ensures RidesOk(Goto(s, c, call)) && Forward(s.rides, Goto(s, c, call).rides)
  {
  }

  lemma SaveKeepsRides(s: State, ride: RideId, row: Ride)
    requires RidesOk(s) && CopyOk(s.rides, ride, row) && row.status != Requested
    ensures RidesOk(Save(s, ride, row)) && Forward(s.rides, Save(s, ride, row).rides)
  {
  }

  lemma LoadKeepsRides(s: State, c: CallId, ride: RideId, changed: Result<Ride, RideError>)
    requires RidesOk(s)
    requires changed.Success? ==> CopyOk(s.rides, ride, changed.value) && changed.value.status != Requested
    ensures RidesOk(Load(s, c, ride, changed)) && Forward(s.rides, Load(s, c, ride, changed).rides)
  {
  }

  lemma CompleteKeepsRides(s: State, ride: RideId, driver: DriverId)
    requires RidesOk(s)
    ensures RidesOk(Complete(s, ride, driver)) && Forward(s.rides, Complete(s, ride, driver).rides)
  {
    if ride in s.rides {
      SaveKeepsRides(s, ride, FinishedRow(s.rides[ride], s.now));
    }
  }

  lemma CreateKeepsRides(s: State, user: UserId, km: nat, category: RideCategory)
    requires RidesOk(s)
    ensures var after := Next(s, CreateRide(user, km, category)); RidesOk(after) && Forward(s.rides, after.rides)
  {
  }

  lemma AcceptKeepsRides(s: State, step: Step)
    requires RidesOk(s) && (step.AcceptLock? || step.AcceptLoad? || step.AcceptCheck? || step.AcceptSave?)
    ensures RidesOk(Next(s, step)) && Forward(s.rides, Next(s, step).rides)
  {
    match step
    case AcceptLock(c, ride, driver, vehicle) => GotoKeepsRides(s, c, AcceptLocked(ride, driver, vehicle));
    case AcceptLoad(c, valid) =>
      if c in s.calls && s.calls[c].AcceptLocked? {
        var call := s.calls[c];
        GotoKeepsRides(s, c, Releasing(call.ride));
        if call.ride in s.rides {
          GotoKeepsRides(s, c, AcceptLoaded(call.ride, s.rides[call.ride], call.driver, call.vehicle));
        }
      }
    case AcceptCheck(c) =>
      if c in s.calls && s.calls[c].AcceptLoaded? {
        var call := s.calls[c];
        GotoKeepsRides(s, c, Releasing(call.ride));
        GotoKeepsRides(s, c, AcceptReady(call.ride, AcceptedBy(call.row, call.driver, call.vehicle, s.now)));
      }
    case AcceptSave(c) =>
      if c in s.calls && s.calls[c].AcceptReady? {
        SaveKeepsRides(s, s.calls[c].ride, s.calls[c].row);
        GotoKeepsRides(Save(s, s.calls[c].ride, s.calls[c].row), c, Releasing(s.calls[c].ride));
      }
  }

  lemma RowCallsKeepRides(s: State, step: Step)
    requires RidesOk(s) && (step.MarkArrived? || step.StartRide? || step.CancelRide? || step.SaveRow?)
    ensures RidesOk(Next(s, step)) && Forward(s.rides, Next(s, step).rides)
  {
    match step
    case MarkArrived(c, ride, driver) =>
      if ride in s.rides { LoadKeepsRides(s, c, ride, ArrivedRow(s.rides[ride], driver)); }
    case StartRide(c, ride, driver) =>
      if ride in s.rides { LoadKeepsRides(s, c, ride, StartedRow(s.rides[ride], driver, s.now)); }
    case CancelRide(c, ride, who) =>
      if ride in s.rides { LoadKeepsRides(s, c, ride, CancelledRow(s.rides[ride], who)); }
    case SaveRow(c) =>
      if c in s.calls && s.calls[c].Saving? {
        SaveKeepsRides(s, s.calls[c].ride, s.calls[c].row);
        GotoKeepsRides(Save(s, s.calls[c].ride, s.calls[c].row), c, Done);
      }
  }

  lemma FinishKeepsRides(s: State, step: Step)
    requires RidesOk(s) && (step.CompleteLock? || step.CompleteRun? || step.Release? || step.Stop?)
    ensures RidesOk(Next(s, step)) && Forward(s.rides, Next(s, step).rides)
  {
    match step
    case CompleteLock(c, ride, driver) => GotoKeepsRides(s, c, CompleteLocked(ride, driver));
    case CompleteRun(c) =>
      if c in s.calls && s.calls[c].CompleteLocked? {
        CompleteKeepsRides(s, s.calls[c].ride, s.calls[c].driver);
        GotoKeepsRides(Complete(s, s.calls[c].ride, s.calls[c].driver), c, Releasing(s.calls[c].ride));
      }
    case Release(c) => GotoKeepsRides(s, c, Done);
    case Stop(c) => GotoKeepsRides(s, c, Done);
  }

  /** Money-only and housekeeping steps see neither the rides nor the calls on them. */
  predicate SparesRides(step: Step) {
    step.RequestFuel? || step.RequestPayout? || step.Answer? || step.StopRequest? ||
    step.LoadProfile? || step.LoadRider? || step.SaveCopy? || step.LockExpires? || step.Tick?
  }

  lemma SparedRides(s: State, step: Step)
    requires SparesRides(step)
    ensures var after := Next(s, step);
            && after.rides == s.rides && after.calls == s.calls && after.nextRide == s.nextRide
            && after.accepted == s.accepted && after.settled == s.settled
  {
  }

  /** No step ever writes REQUESTED over another status, or touches a quote. */
  lemma StepKeepsRides(s: State, step: Step)
    requires RidesOk(s)
    ensures RidesOk(Next(s, step)) && Forward(s.rides, Next(s, step).rides)
  {
    if SparesRides(step) {
      SparedRides(s, step);
    } else if step.CreateRide? {
      CreateKeepsRides(s, step.user, step.hundredthsKm, step.category);
    } else if step.AcceptLock? || step.AcceptLoad? || step.AcceptCheck? || step.AcceptSave? {
      AcceptKeepsRides(s, step);
    } else if step.MarkArrived? || step.StartRide? || step.CancelRide? || step.SaveRow? {
      RowCallsKeepRides(s, step);
    } else {
      FinishKeepsRides(s, step);
    }
  }

  // ----- a call under its lock -----

  /** The call holds the lock of the ride, and is this far. */
  function Holding(s: State, ride: RideId, d: CallId, call: RideCall): State {
    s.(locks := s.locks[ride := d], calls := s.calls[d := call])
  }

  lemma HoldingGoesOn(s: State, ride: RideId, d: CallId, call: RideCall, next: RideCall)
    ensures Goto(Holding(s, ride, d, call), d, next) == Holding(s, ride, d, next)
  {
  }

  // ----- rows read earlier -----

  /** The step saves a row read earlier. */
  predicate Saves(s: State, step: Step) {
    || (step.AcceptSave? && step.c in s.calls && s.calls[step.c].AcceptReady?)
    || (step.SaveRow? && step.c in s.calls && s.calls[step.c].Saving?)
  }

  lemma SavesSaveTheRow(s: State, step: Step)
    requires Saves(s, step)
    ensures Next(s, step).rides == s.rides[s.calls[step.c].ride := s.calls[step.c].row]
  {
  }

  lemma OthersLeaveTheRows(s: State, step: Step)
    requires !Saves(s, step) && !step.CreateRide? && !step.CompleteRun?
    ensures Next(s, step).rides == s.rides
  {
    if SparesRides(step) { SparedRides(s, step); }
  }

  // ----- requests waiting for a gateway -----

  predicate IsWalletEntry(e: Entry) {
    e.rideId.None? && e.owner.DriverAccount? && (e.kind == DriverFuelSupport || e.kind == DriverPayout)
  }

  /** The entry a waiting request will settle or reverse is still as phase 1 wrote it. */
  ghost predicate RequestOk(entries: Entries, id: nat, request: Request) {
    && id < |entries| && request.amount >= MIN_FUEL
    && entries[id].rideId == None && entries[id].owner == DriverAccount(request.driver) && entries[id].status == Pending
    && (if request.Fuel? then entries[id].kind == DriverFuelSupport && entries[id].amount == ToKobo(request.amount)
        else entries[id].kind == DriverPayout && entries[id].amount == -ToKobo(request.amount))
  }

  ghost predicate FuelIsPositive(entries: Entries) {
    forall i :: 0 <= i < |entries| && entries[i].kind == DriverFuelSupport ==> entries[i].amount >= 0
  }

  ghost predicate RequestsOk(s: State) {
    && (forall id :: id in s.pending ==> RequestOk(s.books.entries, id, s.pending[id]))
    && FuelIsPositive(s.books.entries)
  }

  /** The ledger is left alone, or gains one wallet entry, or one wallet entry changes status. */
  ghost predicate WalletStep(entries: Entries, after: Entries) {
    || after == entries
    || (|after| == |entries| + 1 && after == entries + [after[|entries|]] && IsWalletEntry(after[|entries|]))
    || exists id: nat, status ::
         id < |entries| && IsWalletEntry(entries[id]) && after == SettleEntry(entries, id, status)
  }

  lemma FuelKeepsRequests(s: State, driver: DriverId, amount: real)
    requires RequestsOk(s)
    ensures RequestsOk(Next(s, RequestFuel(driver, amount)))
    ensures WalletStep(s.books.entries, Next(s, RequestFuel(driver, amount)).books.entries)
  {
  }

  lemma PayoutKeepsRequests(s: State, driver: DriverId, amount: real)
    requires RequestsOk(s)
    ensures RequestsOk(Next(s, RequestPayout(driver, amount)))
    ensures WalletStep(s.books.entries, Next(s, RequestPayout(driver, amount)).books.entries)
  {
  }

  function SettledAs(request: Request, answer: GatewayAnswer): Status {
    match answer
    case Refused => Failed
    case Confirmed => Completed
    case Processing => if request.Fuel? then Completed else Pending
  }

  lemma AnswerSettlesOne(s: State, id: nat, answer: GatewayAnswer)
    requires RequestsOk(s) && id in s.pending
    ensures var after := Next(s, Answer(id, answer));
            && after.books.entries == SettleEntry(s.books.entries, id, SettledAs(s.pending[id], answer))
            && after.pending == s.pending - {id}
            && RequestsOk(after) && WalletStep(s.books.entries, after.books.entries)
  {
  }

  lemma CompleteKeepsRequests(s: State, ride: RideId, driver: DriverId)
    requires RequestsOk(s)
    ensures var after := Complete(s, ride, driver);
            RequestsOk(after) && after.pending == s.pending && s.books.entries <= after.books.entries
  {
  }

  lemma RideStepsSpareRequests(s: State, step: Step)
    requires !SparesRides(step) && !step.CompleteRun?
    ensures Next(s, step).books == s.books && Next(s, step).pending == s.pending
  {
  }

  /** Every other step leaves the ledger alone and files no request. */
  lemma SparedRequests(s: State, step: Step)
    requires !step.RequestFuel? && !step.RequestPayout? && !step.Answer? && !step.CompleteRun?
    ensures var after := Next(s, step);
            && after.books.entries == s.books.entries
            && forall id :: id in after.pending ==> id in s.pending && after.pending[id] == s.pending[id]
  {
    if !SparesRides(step) { RideStepsSpareRequests(s, step); }
  }

  lemma StepKeepsRequests(s: State, step: Step)
    requires RequestsOk(s)
    ensures RequestsOk(Next(s, step)) && (step.CompleteRun? || WalletStep(s.books.entries, Next(s, step).books.entries))
  {
    match step
    case RequestFuel(driver, amount) => FuelKeepsRequests(s, driver, amount);
    case RequestPayout(driver, amount) => PayoutKeepsRequests(s, driver, amount);
    case Answer(id, answer) => if id in s.pending { AnswerSettlesOne(s, id, answer); }
    case CompleteRun(c) =>
      if c in s.calls && s.calls[c].CompleteLocked? { CompleteKeepsRequests(s, s.calls[c].ride, s.calls[c].driver); }
    case _ => SparedRequests(s, step);
  }

  ghost predicate Base(s: State) {
    RidesOk(s) && RequestsOk(s)
  }

  lemma {:induction false} RunKeepsBase(s: State, steps: seq<Step>)
    requires Base(s)
    ensures Base(Run(s, steps))
  {
    if steps != [] {
      RunKeepsBase(s, steps[..|steps| - 1]);
      StepKeepsRides(Run(s, steps[..|steps| - 1]), steps[|steps| - 1]);
      StepKeepsRequests(Run(s, steps[..|steps| - 1]), steps[|steps| - 1]);
    }
  }
}
