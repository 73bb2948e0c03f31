/** The services as the objects they are, over one store they update in place. */
module Services {
  import opened Prelude
  import opened Fleet
  import opened Money
  import opened Ledger
  import opened Books
  import opened Rides
  import opened Dispatch
  import opened Wallet
  import opened TokenServices

  /** The account a driver's sessions belong to. */
  function Account(driver: DriverId): RefreshTokens.Subject {
    RefreshTokens.Subject(driver, RefreshTokens.Role.Driver)
  }

  /** The tables and Redis keys the services share. */
  class Store {
    var now: int
    var rides: map<RideId, Ride>
    var nextRide: RideId
    var drivers: map<DriverId, Driver>
    var riders: map<UserId, Rider>
    var entries: Entries
    var vehicles: map<VehicleId, Vehicle>
    var activeRide: map<DriverId, RideId>
    var rideLocks: set<RideId>
    var fuelLocks: set<DriverId>
    var payoutLocks: set<DriverId>

    ghost function TheBooks(): Books
      reads this
    {
      Books(drivers, riders, entries)
    }

    ghost function View(): World
      reads this
    {
      World(now, rides, nextRide, TheBooks(), vehicles, activeRide)
    }
  }

  class RidesService {
    const store: Store

    constructor (store: Store)
      ensures this.store == store
    {
      this.store := store;
    }

    method CreateRide(user: UserId, hundredthsKm: nat, category: RideCategory) returns (r: Result<RideId, RideError>)
      modifies store`rides, store`nextRide
      ensures var answer := Dispatch.CreateRide(old(store.View()), user, hundredthsKm, category);
              && store.View() == Outcome(old(store.View()), answer)
              && r == match answer case Success(_) => Success(old(store.nextRide)) case Failure(e) => Failure(e)
    {
      if user !in store.riders {
        return Failure(NotFound);
      }
      if store.riders[user].isBlocked {
        return Failure(Forbidden);
      }
      var fare := CalculateFare(hundredthsKm, category);
      var id := store.nextRide;
      var row := Ride(user, None, None, category, ToKobo(fare), None, Requested, store.now, None, None, None, None);
      store.rides := store.rides[id := row];
      store.nextRide := id + 1;
      r := Success(id);
    }

    /** Accept a ride under its lock; while another call holds the lock, refuse and change nothing. */
    method AcceptRide(ride: RideId, driver: DriverId, vehicle: VehicleId) returns (error: Option<RideError>)
      modifies store`rides, store`activeRide, store`rideLocks
      ensures store.rideLocks == old(store.rideLocks)
      ensures old(ride in store.rideLocks) ==> error == Some(Locked) && store.View() == old(store.View())
      ensures old(ride !in store.rideLocks) ==>
                && error == AcceptError(old(store.View()), ride, driver, vehicle)
                && store.View() == Outcome(old(store.View()),
                                           Dispatch.AcceptRide(old(store.View()), ride, driver, vehicle))
    {
      if ride in store.rideLocks {
        return Some(Locked);
      }
      store.rideLocks := store.rideLocks + {ride};
      error := CheckAccept(ride, driver, vehicle);
      if error.None? {
        var row := store.rides[ride];
        row := row.(driver := Some(driver), vehicle := Some(vehicle));
        row := row.(status := Accepted, acceptedAt := Some(store.now));
        store.rides := store.rides[ride := row];
        store.activeRide := store.activeRide[driver := ride];
      }
      store.rideLocks := store.rideLocks - {ride};
    }

    method CheckAccept(ride: RideId, driver: DriverId, vehicle: VehicleId) returns (error: Option<RideError>)
      ensures error == AcceptError(store.View(), ride, driver, vehicle)
    {
      if ride !in store.rides {
        return Some(NotFound);
      }
      var row := store.rides[ride];
      if row.status != Requested {
        return Some(InvalidState);
      }
      if driver !in store.drivers || !store.drivers[driver].isActive || !store.drivers[driver].isOnline {
        return Some(DriverUnavailable);
      }
      if vehicle !in store.vehicles || store.vehicles[vehicle].owner != driver || !store.vehicles[vehicle].isActive {
        return Some(BadVehicle);
      }
      if !VehicleTypeMatchesCategory(store.vehicles[vehicle].kind, row.category) {
        return Some(WrongVehicleType);
      }
      var active := ActiveRides(store.rides, driver);
      if exists r :: r in active && IsExclusiveCategory(store.rides[r].category) {
        return Some(OnExclusiveRide);
      }
      if IsExclusiveCategory(row.category) && |active| > 0 {
        return Some(NotFree);
      }
      if row.category == Shared && |active| >= MAX_ACTIVE_SHARED_RIDES {
        return Some(PoolFull);
      }
      error := None;
    }

    method MarkArrived(ride: RideId, driver: DriverId) returns (error: Option<RideError>)
      modifies store`rides
      ensures var answer := Dispatch.MarkArrived(old(store.View()), ride, driver);
              && store.View() == Outcome(old(store.View()), answer)
              && error == if answer.Failure? then Some(answer.error) else None
    {
      if ride !in store.rides {
        return Some(NotFound);
      }
      var row := store.rides[ride];
      if row.driver != Some(driver) {
        return Some(Forbidden);
      }
      if row.status != Accepted {
        return Some(InvalidState);
      }
      store.rides := store.rides[ride := row.(status := Arrived)];
      error := None;
    }

    method StartRide(ride: RideId, driver: DriverId) returns (error: Option<RideError>)
      modifies store`rides
      ensures var answer := Dispatch.StartRide(old(store.View()), ride, driver);
              && store.View() == Outcome(old(store.View()), answer)
              && error == if answer.Failure? then Some(answer.error) else None
    {
      if ride !in store.rides {
        return Some(NotFound);
      }
      var row := store.rides[ride];
      if row.driver != Some(driver) {
        return Some(Forbidden);
      }
      if row.status != Arrived {
        return Some(InvalidState);
      }
      store.rides := store.rides[ride := row.(status := InProgress, startedAt := Some(store.now))];
      error := None;
    }

    /** Complete a ride under its lock: everything the transaction writes, or nothing. */
    method CompleteRide(ride: RideId, driver: DriverId) returns (error: Option<RideError>)
      modifies store`rides, store`drivers, store`riders, store`entries, store`activeRide, store`rideLocks
      ensures store.rideLocks == old(store.rideLocks)
      ensures old(ride in store.rideLocks) ==> error == Some(Locked) && store.View() == old(store.View())
      ensures old(ride !in store.rideLocks) ==>
                var answer := Dispatch.CompleteRide(old(store.View()), ride, driver);
                && store.View() == Outcome(old(store.View()), answer)
                && error == if answer.Failure? then Some(answer.error) else None
    {
      if ride in store.rideLocks {
        return Some(Locked);
      }
      store.rideLocks := store.rideLocks + {ride};
      var settled: bool;
      error, settled := SettleInTransaction(ride, driver);
      if settled {
        store.activeRide := store.activeRide - {driver};
      }
      store.rideLocks := store.rideLocks - {ride};
    }

    method SettleInTransaction(ride: RideId, driver: DriverId) returns (error: Option<RideError>, settled: bool)
      modifies store`rides, store`drivers, store`riders, store`entries
      ensures var answer := Dispatch.CompleteRide(old(store.View()), ride, driver);
              && settled == (answer.Success? && old(ride in store.rides && store.rides[ride].status == InProgress))
              && store.View() == (if settled then answer.value else old(store.View())).(activeRide := store.activeRide)
              && error == if answer.Failure? then Some(answer.error) else None
    {
      settled := false;
      if ride !in store.rides {
        return Some(NotFound), false;
      }
      var row := store.rides[ride];
      if row.driver != Some(driver) {
        return Some(Forbidden), false;
      }
      if row.status == RideCompleted {
        return None, false;
      }
      if row.status != InProgress {
        return Some(InvalidState), false;
      }
      if driver !in store.drivers || row.user !in store.riders {
        return Some(NotFound), false;
      }
      var split := SplitFareKobo(ToNaira(row.estimatedFare));
      var written := WriteEntries(store.entries, FareEntries(ride, driver, row.user, split, store.now));
      if written.None? {
        return Some(DuplicatePayout), false;
      }
      var d, u := store.drivers[driver], store.riders[row.user];
      row := row.(finalFare := Some(row.estimatedFare), status := RideCompleted, completedAt := Some(store.now));
      store.rides := store.rides[ride := row];
      store.drivers := store.drivers[driver :=
        d.(walletBalance := d.walletBalance + split.driverKobo, totalCompletedRides := d.totalCompletedRides + 1)];
      store.riders := store.riders[row.user := u.(cashbackBalance := u.cashbackBalance + split.riderKobo)];
      store.entries := written.value;
      error, settled := None, true;
    }

    method CancelRide(ride: RideId, who: Canceller) returns (error: Option<RideError>)
      modifies store`rides, store`activeRide
      ensures var answer := Dispatch.CancelRide(old(store.View()), ride, who);
              && store.View() == Outcome(old(store.View()), answer)
              && error == if answer.Failure? then Some(answer.error) else None
    {
      if ride !in store.rides {
        return Some(NotFound);
      }
      var row := store.rides[ride];
      if row.status == RideCompleted {
        return Some(InvalidState);
      }
      if who.ByRider? && (row.user != who.user || row.status == InProgress) {
        return Some(Forbidden);
      }
      if who.ByDriver? && (row.driver != Some(who.driver) || who.reason == "") {
        return Some(Forbidden);
      }
      var reason := if who.reason == "" then "Cancelled by user" else who.reason;
      store.rides := store.rides[ride := row.(status := RideCancelled, cancellationReason := Some(reason))];
      if row.driver.Some? {
        store.activeRide := store.activeRide - {row.driver.value};
      }
      error := None;
    }
  }

  class DriversService {
    const store: Store
    const tokens: TokenService

    constructor (store: Store, tokens: TokenService)
      ensures this.store == store && this.tokens == tokens
    {
      this.store := store;
      this.tokens := tokens;
    }

    method UpdateOnlineStatus(driver: DriverId, isOnline: bool) returns (error: Option<RideError>)
      modifies store`drivers
      ensures var answer := Dispatch.UpdateOnlineStatus(old(store.View()), driver, isOnline);
              && store.View() == Outcome(old(store.View()), answer)
              && error == if answer.Failure? then Some(answer.error) else None
    {
      if driver !in store.drivers {
        return Some(NotFound);
      }
      var row := store.drivers[driver];
      if isOnline && row.verification != Approved {
        return Some(InvalidState);
      }
      if isOnline && !row.isActive {
        return Some(InvalidState);
      }
      store.drivers := store.drivers[driver := row.(isOnline := isOnline)];
      error := None;
    }

    /** Losing approval takes the driver offline and ends every session of theirs. */
    method UpdateVerificationStatus(driver: DriverId, status: Verification) returns (error: Option<RideError>)
      modifies store`drivers, tokens
      ensures var answer := Dispatch.UpdateVerificationStatus(old(store.View()), driver, status);
              && store.View() == Outcome(old(store.View()), answer)
              && error == if answer.Failure? then Some(answer.error) else None
      ensures tokens.rows == if error.None? && status != Approved then
                               RefreshTokens.RevokeSubject(old(tokens.rows), Account(driver), store.now)
                             else old(tokens.rows)
    {
      if driver !in store.drivers {
        return Some(NotFound);
      }
      var row := store.drivers[driver].(verification := status);
      if status != Approved {
        row := row.(isOnline := false);
      }
      store.drivers := store.drivers[driver := row];
      if status != Approved {
        tokens.RevokeAllForSubject(Account(driver), store.now);
      }
      error := None;
    }

    /** Suspension takes the driver offline in the same write, and ends every session of theirs. */
    method UpdateActiveStatus(driver: DriverId, isActive: bool) returns (error: Option<RideError>)
      modifies store`drivers, tokens
      ensures var answer := Dispatch.UpdateActiveStatus(old(store.View()), driver, isActive);
              && store.View() == Outcome(old(store.View()), answer)
              && error == if answer.Failure? then Some(answer.error) else None
      ensures tokens.rows == if error.None? && !isActive then
                               RefreshTokens.RevokeSubject(old(tokens.rows), Account(driver), store.now)
                             else old(tokens.rows)
    {
      if driver !in store.drivers {
        return Some(NotFound);
      }
      var row := store.drivers[driver].(isActive := isActive);
      if !isActive {
        row := row.(isOnline := false);
      }
      store.drivers := store.drivers[driver := row];
      if !isActive {
        tokens.RevokeAllForSubject(Account(driver), store.now);
      }
      error := None;
    }
  }

  class WalletService {
    const store: Store
    const dailyLimit: int

    constructor (store: Store, dailyLimit: int)
      ensures this.store == store && this.dailyLimit == dailyLimit
    {
      this.store := store;
      this.dailyLimit := dailyLimit;
    }

    /** Reserve, ask the bank, then settle or reverse; the lock is released either way. */
    method RequestFuelSupport(driver: DriverId, amount: real, approved: bool) returns (error: Option<WalletError>)
      modifies store`drivers, store`entries, store`fuelLocks
      ensures store.fuelLocks == old(store.fuelLocks)
      ensures old(driver in store.fuelLocks) ==> error == Some(Busy) && store.TheBooks() == old(store.TheBooks())
      ensures old(driver !in store.fuelLocks) ==>
                Effect(store.TheBooks(), error)
                == FuelSupport(old(store.TheBooks()), driver, amount, dailyLimit, store.now, approved)
    {
      if driver in store.fuelLocks {
        return Some(Busy);
      }
      store.fuelLocks := store.fuelLocks + {driver};
      var used := Total(store.entries, FuelWeight(driver, TodayWindow(store.now)));
      if driver !in store.drivers {
        error := Some(UnknownDriver);
      } else if amount > ToNaira(dailyLimit - used) {
        error := Some(OverLimit);
      } else {
        var id := |store.entries|;
        var row := store.drivers[driver];
        store.drivers := store.drivers[driver := row.(walletBalance := row.walletBalance + ToKobo(amount))];
        var entry := Entry(None, DriverFuelSupport, DriverAccount(driver), Stored(amount), Pending, store.now);
        store.entries := store.entries + [entry];
        if !approved {
          ReverseDriverBalance(driver, -amount, id);
          error := Some(Declined);
        } else {
          store.entries := SettleEntry(store.entries, id, Completed);
          error := None;
        }
      }
      store.fuelLocks := store.fuelLocks - {driver};
    }

    /** Debit, ask the gateway, then settle or give the money back; the lock is released either way. */
    method RequestPayout(driver: DriverId, amount: real, answer: PayoutAnswer) returns (error: Option<WalletError>)
      modifies store`drivers, store`entries, store`payoutLocks
      ensures store.payoutLocks == old(store.payoutLocks)
      ensures old(driver in store.payoutLocks) ==> error == Some(Busy) && store.TheBooks() == old(store.TheBooks())
      ensures old(driver !in store.payoutLocks) ==>
                Effect(store.TheBooks(), error)
                == Wallet.RequestPayout(old(store.TheBooks()), driver, amount, store.now, answer)
    {
      if driver in store.payoutLocks {
        return Some(Busy);
      }
      store.payoutLocks := store.payoutLocks + {driver};
      if driver !in store.drivers {
        error := Some(UnknownDriver);
      } else if amount > ToNaira(store.drivers[driver].walletBalance) {
        error := Some(Insufficient);
      } else {
        var id := |store.entries|;
        var row := store.drivers[driver];
        store.drivers := store.drivers[driver := row.(walletBalance := row.walletBalance - ToKobo(amount))];
        var entry := Entry(None, DriverPayout, DriverAccount(driver), Stored(-amount), Pending, store.now);
        store.entries := store.entries + [entry];
        if answer == PayoutFailed {
          ReverseDriverBalance(driver, amount, id);
          error := Some(Declined);
        } else {
          store.entries := SettleEntry(store.entries, id, if answer == PayoutCompleted then Completed else Pending);
          error := None;
        }
      }
      store.payoutLocks := store.payoutLocks - {driver};
    }

    method ReverseDriverBalance(driver: DriverId, delta: real, id: nat)
      modifies store`drivers, store`entries
      ensures store.TheBooks() == ReverseBalance(old(store.TheBooks()), driver, delta, id)
    {
      if driver in store.drivers {
        var row := store.drivers[driver];
        store.drivers := store.drivers[driver := row.(walletBalance := row.walletBalance + ToKobo(delta))];
      }
      store.entries := SettleEntry(store.entries, id, Failed);
    }
  }
}
