/** A ride or wallet call that runs with nothing in between does what the whole call does. */
module PlatformAtomic {
  import opened Prelude
  import opened Ledger
  import opened Books
  import opened Rides
  import opened Platform
  import opened PlatformBase
  import Dispatch
  import Wallet

  /** The fine-grained state shows what the whole-call world shows. */
  predicate Agrees(s: State, w: Dispatch.World) {
    s.now == w.now && s.rides == w.rides && s.nextRide == w.nextRide && s.books == w.books
  }

  /** SET NX of the lock, the ride, driver and vehicle checks, the load check, the save, and DEL of the lock. */
  function AcceptAlone(s: State, w: Dispatch.World, c: CallId, ride: RideId, driver: DriverId,
        vehicle: VehicleId): State {
    Next(Next(Checked(s, w, c, ride, driver, vehicle), AcceptSave(c)), Release(c))
  }

  function Loaded(s: State, w: Dispatch.World, c: CallId, ride: RideId, driver: DriverId, vehicle: VehicleId): State {
    var valid := Dispatch.PartyError(w, ride, driver, vehicle).None?;
    Next(Next(s, AcceptLock(c, ride, driver, vehicle)), AcceptLoad(c, valid))
  }

  function Checked(s: State, w: Dispatch.World, c: CallId, ride: RideId, driver: DriverId, vehicle: VehicleId): State {
    Next(Loaded(s, w, c, ride, driver, vehicle), AcceptCheck(c))
  }

  lemma LoadIsPartyCheck(s: State, w: Dispatch.World, c: CallId, ride: RideId, driver: DriverId, vehicle: VehicleId)
    requires Agrees(s, w) && c !in s.calls && ride !in s.locks
    ensures Dispatch.PartyError(w, ride, driver, vehicle).None? ==> ride in s.rides
    ensures Loaded(s, w, c, ride, driver, vehicle)
            == Holding(s, ride, c, if Dispatch.PartyError(w, ride, driver, vehicle).None?
                                   then AcceptLoaded(ride, s.rides[ride], driver, vehicle) else Releasing(ride))
  {
    var locking, valid := AcceptLocked(ride, driver, vehicle), Dispatch.PartyError(w, ride, driver, vehicle).None?;
    var locked := Holding(s, ride, c, locking);
    assert Next(s, AcceptLock(c, ride, driver, vehicle)) == locked;
    assert Next(locked, AcceptLoad(c, valid)) == LoadForAccept(locked, c, locking, valid);
    HoldingGoesOn(s, ride, c, locking, Releasing(ride));
    if valid { HoldingGoesOn(s, ride, c, locking, AcceptLoaded(ride, s.rides[ride], driver, vehicle)); }
  }

  lemma ChecksAreAcceptError(s: State, w: Dispatch.World, c: CallId, ride: RideId, driver: DriverId, vehicle: VehicleId)
    requires Agrees(s, w) && c !in s.calls && ride !in s.locks
    ensures Dispatch.AcceptError(w, ride, driver, vehicle).None? ==> ride in s.rides
    ensures Checked(s, w, c, ride, driver, vehicle)
            == Holding(s, ride, c, if Dispatch.AcceptError(w, ride, driver, vehicle).None?
                                   then AcceptReady(ride, AcceptedBy(s.rides[ride], driver, vehicle, s.now))
                                   else Releasing(ride))
  {
    var loaded := Loaded(s, w, c, ride, driver, vehicle);
    LoadIsPartyCheck(s, w, c, ride, driver, vehicle);
    CheckIsLoadCheck(loaded, c);
    if Dispatch.PartyError(w, ride, driver, vehicle).None? {
      CheckedLoad(s, ride, c, AcceptLoaded(ride, s.rides[ride], driver, vehicle));
    }
  }

  /** The load check reads the rides as they were when the lock was taken. */
  lemma CheckedLoad(s: State, ride: RideId, c: CallId, call: RideCall)
    requires call.AcceptLoaded? && call.ride == ride
    ensures CheckLoad(Holding(s, ride, c, call), c, call)
            == Holding(s, ride, c, if LoadError(s.rides, call.driver, call.row.category).None?
                                   then AcceptReady(ride, AcceptedBy(call.row, call.driver, call.vehicle, s.now))
                                   else Releasing(ride))
  {
    HoldingGoesOn(s, ride, c, call, AcceptReady(ride, AcceptedBy(call.row, call.driver, call.vehicle, s.now)));
    HoldingGoesOn(s, ride, c, call, Releasing(ride));
  }

  lemma CheckIsLoadCheck(s: State, c: CallId)
    requires c in s.calls
    ensures Next(s, AcceptCheck(c)) == if s.calls[c].AcceptLoaded? then CheckLoad(s, c, s.calls[c]) else s
  {
  }

  lemma ReleaseIsDelete(s: State, c: CallId, ride: RideId)
    requires c in s.calls && s.calls[c] == Releasing(ride)
    ensures Next(s, Release(c)) == s.(calls := s.calls[c := Done], locks := s.locks - {ride})
  {
  }

  lemma SaveIsCommit(s: State, c: CallId)
    requires c in s.calls
    ensures Next(s, AcceptSave(c))
            == if s.calls[c].AcceptReady? then
                 var ride := s.calls[c].ride;
                 Goto(Save(s, ride, s.calls[c].row), c, Releasing(ride)).(accepted := s.accepted + [ride])
               else s
  {
  }

  lemma AcceptIsAtomic(s: State, w: Dispatch.World, c: CallId, ride: RideId, driver: DriverId, vehicle: VehicleId)
    requires Agrees(s, w) && c !in s.calls && ride !in s.locks
    ensures var after := AcceptAlone(s, w, c, ride, driver, vehicle);
            var answer := Dispatch.AcceptRide(w, ride, driver, vehicle);
            && Agrees(after, Dispatch.Outcome(w, answer)) && after.locks == s.locks
            && after.accepted == s.accepted + if answer.Success? then [ride] else []
  {
    ChecksAreAcceptError(s, w, c, ride, driver, vehicle);
    assert s.locks[ride := c] - {ride} == s.locks;
    var checked := Checked(s, w, c, ride, driver, vehicle);
    SaveIsCommit(checked, c);
    ReleaseIsDelete(Next(checked, AcceptSave(c)), c, ride);
  }

  lemma CompleteIsAtomic(s: State, w: Dispatch.World, c: CallId, ride: RideId, driver: DriverId)
    requires Agrees(s, w) && c !in s.calls && ride !in s.locks
    ensures var after := Next(Next(Next(s, CompleteLock(c, ride, driver)), CompleteRun(c)), Release(c));
            Agrees(after, Dispatch.Outcome(w, Dispatch.CompleteRide(w, ride, driver))) && after.locks == s.locks
  {
    var locked := Next(s, CompleteLock(c, ride, driver));
    assert locked == s.(calls := s.calls[c := CompleteLocked(ride, driver)], locks := s.locks[ride := c]);
    assert s.locks[ride := c] - {ride} == s.locks;
    CompletionAgrees(locked, w, ride, driver);
    var run := Next(locked, CompleteRun(c));
    assert run == Goto(Complete(locked, ride, driver), c, Releasing(ride));
    ReleaseIsDelete(run, c, ride);
  }

  lemma CompletionAgrees(s: State, w: Dispatch.World, ride: RideId, driver: DriverId)
    requires Agrees(s, w)
    ensures Agrees(Complete(s, ride, driver), Dispatch.Outcome(w, Dispatch.CompleteRide(w, ride, driver)))
  {
  }

  lemma RowCallIsAtomic(s: State, w: Dispatch.World, c: CallId, ride: RideId, changed: Result<Ride, RideError>)
    requires Agrees(s, w) && c !in s.calls
    ensures Agrees(Next(Load(s, c, ride, changed), SaveRow(c)), Dispatch.Outcome(w, Dispatch.SaveRow(w, ride, changed)))
  {
  }

  /** Nothing was read, so there is nothing to save. */
  lemma NoRowCall(s: State, c: CallId)
    requires c !in s.calls
    ensures Next(s, SaveRow(c)) == s
  {
  }

  lemma ArrivalIsAtomic(s: State, w: Dispatch.World, c: CallId, ride: RideId, driver: DriverId)
    requires Agrees(s, w) && c !in s.calls
    ensures Agrees(Next(Next(s, MarkArrived(c, ride, driver)), SaveRow(c)),
                   Dispatch.Outcome(w, Dispatch.MarkArrived(w, ride, driver)))
  {
    NoRowCall(s, c);
    if ride in s.rides { RowCallIsAtomic(s, w, c, ride, ArrivedRow(s.rides[ride], driver)); }
  }

  lemma StartIsAtomic(s: State, w: Dispatch.World, c: CallId, ride: RideId, driver: DriverId)
    requires Agrees(s, w) && c !in s.calls
    ensures Agrees(Next(Next(s, StartRide(c, ride, driver)), SaveRow(c)),
                   Dispatch.Outcome(w, Dispatch.StartRide(w, ride, driver)))
  {
    NoRowCall(s, c);
    if ride in s.rides { RowCallIsAtomic(s, w, c, ride, StartedRow(s.rides[ride], driver, s.now)); }
  }

  lemma CancelIsAtomic(s: State, w: Dispatch.World, c: CallId, ride: RideId, who: Canceller)
    requires Agrees(s, w) && c !in s.calls
    ensures Agrees(Next(Next(s, CancelRide(c, ride, who)), SaveRow(c)),
                   Dispatch.Outcome(w, Dispatch.CancelRide(w, ride, who)))
  {
  }

  lemma NothingFiledYet(s: State)
    requires RequestsOk(s)
    ensures |s.books.entries| !in s.pending
  {
  }

  /** Phase 1, then the gateway's answer: the request is answered, or nothing was filed to answer. */
  lemma AnsweredAtOnce(s: State, reserved: Option<Books>, request: Request, answer: GatewayAnswer)
    requires |s.books.entries| !in s.pending
    ensures var id := |s.books.entries|;
            Next(Reserve(s, reserved, request), Answer(id, answer))
            == if reserved.None? then s
               else Answered(s.(books := reserved.value), id, request, answer)
  {
  }

  lemma FuelIsAtomic(s: State, driver: DriverId, amount: real, approved: bool)
    requires RequestsOk(s) && amount >= MIN_FUEL
    ensures var answer := Answer(|s.books.entries|, if approved then Confirmed else Refused);
            var after := Next(Next(s, RequestFuel(driver, amount)), answer);
            && after.books == Wallet.FuelSupport(s.books, driver, amount, s.dailyLimit, s.now, approved).books
            && after.pending == s.pending
  {
    var reserved := ReserveFuel(s.books, driver, amount, s.dailyLimit, s.now);
    var answer := if approved then Confirmed else Refused;
    NothingFiledYet(s);
    assert Next(s, RequestFuel(driver, amount)) == Reserve(s, reserved, Fuel(driver, amount));
    AnsweredAtOnce(s, reserved, Fuel(driver, amount), answer);
    assert s.pending - {|s.books.entries|} == s.pending;
  }

  function ToGateway(answer: Wallet.PayoutAnswer): GatewayAnswer {
    match answer
    case PayoutCompleted => Confirmed
    case PayoutProcessing => Processing
    case PayoutFailed => Refused
  }

  lemma PayoutIsAtomic(s: State, driver: DriverId, amount: real, answer: Wallet.PayoutAnswer)
    requires RequestsOk(s) && amount >= MIN_PAYOUT
    ensures var after := Next(Next(s, RequestPayout(driver, amount)), Answer(|s.books.entries|, ToGateway(answer)));
            && after.books == Wallet.RequestPayout(s.books, driver, amount, s.now, answer).books
            && after.pending == s.pending
  {
    var debited := DebitPayout(s.books, driver, amount, s.now);
    NothingFiledYet(s);
    assert Next(s, RequestPayout(driver, amount)) == Reserve(s, debited, Payout(driver, amount));
    AnsweredAtOnce(s, debited, Payout(driver, amount), ToGateway(answer));
    assert s.pending - {|s.books.entries|} == s.pending;
  }
}
