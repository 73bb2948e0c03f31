/**
 * Balance columns and the ledger behind them, and the transactions that move
 * both (completeRide's settlement, WalletService).
 */
module Books {
  import opened Prelude
  import opened Money
  import opened Ledger

  type DriverId = nat
  type UserId = nat

  datatype Verification = PendingReview | Approved | Rejected

  datatype Driver = Driver(
    verification: Verification,
    isOnline: bool,
    isActive: bool,
    walletBalance: int,
    totalCompletedRides: int)

  datatype Rider = Rider(isBlocked: bool, cashbackBalance: int)

  datatype Books = Books(drivers: map<DriverId, Driver>, riders: map<UserId, Rider>, entries: Entries)

  /** A decimal(x,2) column rounds halves away from zero. */
  function Stored(naira: real): int {
    if naira >= 0.0 then Round(naira * 100.0) else -Round(-naira * 100.0)
  }

  lemma StoredIsKobo(amount: real)
    requires amount > 0.0
    ensures Stored(amount) == ToKobo(amount) && Stored(-amount) == -ToKobo(amount)
  {
  }

  // ----- transactions; None is a rollback -----

  function FareEntries(ride: RideId, driver: DriverId, rider: UserId, split: FareSplit, now: int): Entries {
    [Entry(Some(ride), RideFareDriver, DriverAccount(driver), split.driverKobo, Completed, now),
     Entry(Some(ride), RideFarePlatform, PlatformAccount, split.platformKobo, Completed, now),
     Entry(Some(ride), RideFareRiderCashback, RiderAccount(rider), split.riderKobo, Completed, now)]
  }

  /** The money half of completeRide. */
  function SettleFare(b: Books, ride: RideId, driver: DriverId, rider: UserId, fareKobo: int, now: int): Option<Books> {
    if driver !in b.drivers || rider !in b.riders then None
    else
      var split := SplitFareKobo(ToNaira(fareKobo));
      var d, r := b.drivers[driver], b.riders[rider];
      var written := WriteEntries(b.entries, FareEntries(ride, driver, rider, split, now));
      if written.None? then None
      else Some(Books(
        b.drivers[driver := d.(
          walletBalance := d.walletBalance + split.driverKobo,
          totalCompletedRides := d.totalCompletedRides + 1)],
        b.riders[rider := r.(cashbackBalance := r.cashbackBalance + split.riderKobo)],
        written.value))
  }

  /** The three entries of a fare: the driver's 95%, the platform's rest, the rider's 1%. */
  function FareRows(ride: RideId, driver: DriverId, rider: UserId, fare: int, now: int): Entries {
    var driverShare, riderShare := 95 * fare / 100, fare / 100;
    [Entry(Some(ride), RideFareDriver, DriverAccount(driver), driverShare, Completed, now),
     Entry(Some(ride), RideFarePlatform, PlatformAccount, fare - driverShare - riderShare, Completed, now),
     Entry(Some(ride), RideFareRiderCashback, RiderAccount(rider), riderShare, Completed, now)]
  }

  lemma FareRowsAreWritten(ride: RideId, driver: DriverId, rider: UserId, fare: int, now: int)
    ensures var split := SplitFareKobo(ToNaira(fare));
            && split == FareSplit(fare, 95 * fare / 100, fare - 95 * fare / 100 - fare / 100, fare / 100)
            && FareEntries(ride, driver, rider, split, now) == FareRows(ride, driver, rider, fare, now)
  {
    KoboRoundTrip(fare);
    FloorOfFraction(fare, 95);
    FloorOfFraction(fare, 1);
  }

  function WithBalance(b: Books, driver: DriverId, balance: int): Books
    requires driver in b.drivers
  {
    b.(drivers := b.drivers[driver := b.drivers[driver].(walletBalance := balance)])
  }

  /** Phase 1 of requestFuelSupport. */
  function ReserveFuel(b: Books, driver: DriverId, amount: real, dailyLimit: int, now: int): Option<Books> {
    if driver !in b.drivers then None
    else if amount > ToNaira(dailyLimit - Total(b.entries, FuelWeight(driver, TodayWindow(now)))) then None
    else
      Some(WithBalance(b, driver, b.drivers[driver].walletBalance + ToKobo(amount)).(
        entries := b.entries + [Entry(None, DriverFuelSupport, DriverAccount(driver), Stored(amount), Pending, now)]))
  }

  /** Phase 1 of requestPayout. */
  function DebitPayout(b: Books, driver: DriverId, amount: real, now: int): Option<Books> {
    if driver !in b.drivers then None
    else if amount > ToNaira(b.drivers[driver].walletBalance) then None
    else
      Some(WithBalance(b, driver, b.drivers[driver].walletBalance - ToKobo(amount)).(
        entries := b.entries + [Entry(None, DriverPayout, DriverAccount(driver), Stored(-amount), Pending, now)]))
  }

  /** reverseDriverBalance: `delta` is positive for a failed payout, negative for declined fuel. */
  function ReverseBalance(b: Books, driver: DriverId, delta: real, id: nat): Books {
    var moved :=
      if driver in b.drivers then WithBalance(b, driver, b.drivers[driver].walletBalance + ToKobo(delta)) else b;
    moved.(entries := SettleEntry(b.entries, id, Failed))
  }

  // ----- the balances are caches of the ledger -----

  ghost predicate DriverConserved(b: Books, driver: DriverId) {
    driver in b.drivers ==>
      && b.drivers[driver].walletBalance == Total(b.entries, WalletWeight(driver))
      && b.drivers[driver].totalCompletedRides == Total(b.entries, FareCountWeight(driver))
  }

  ghost predicate RiderConserved(b: Books, rider: UserId) {
    rider in b.riders ==> b.riders[rider].cashbackBalance == Total(b.entries, CashbackWeight(rider))
  }

  ghost predicate Conserved(b: Books) {
    && (forall d :: DriverConserved(b, d))
    && (forall r :: RiderConserved(b, r))
  }

  lemma SettleFareConserves(b: Books, ride: RideId, driver: DriverId, rider: UserId, fareKobo: int, now: int)
    requires Conserved(b) && SettleFare(b, ride, driver, rider, fareKobo, now).Some?
    ensures Conserved(SettleFare(b, ride, driver, rider, fareKobo, now).value)
  {
    var after := SettleFare(b, ride, driver, rider, fareKobo, now).value;
    var rows := FareEntries(ride, driver, rider, SplitFareKobo(ToNaira(fareKobo)), now);
    forall d ensures DriverConserved(after, d) {
      assert DriverConserved(b, d);
      TotalThree(b.entries, rows[0], rows[1], rows[2], WalletWeight(d));
      TotalThree(b.entries, rows[0], rows[1], rows[2], FareCountWeight(d));
    }
    forall r ensures RiderConserved(after, r) {
      assert RiderConserved(b, r);
      TotalThree(b.entries, rows[0], rows[1], rows[2], CashbackWeight(r));
    }
  }

  /** One entry of the driver's own, and the same move of their balance. */
  lemma AppendConserves(b: Books, driver: DriverId, e: Entry)
    requires Conserved(b) && driver in b.drivers
    requires e.owner == DriverAccount(driver) && e.Stands() && e.kind != RideFareDriver
    ensures Conserved(WithBalance(b, driver, b.drivers[driver].walletBalance + e.amount).(entries := b.entries + [e]))
  {
    var after := WithBalance(b, driver, b.drivers[driver].walletBalance + e.amount).(entries := b.entries + [e]);
    forall d ensures DriverConserved(after, d) {
      assert DriverConserved(b, d);
      TotalAppend(b.entries, e, WalletWeight(d));
      TotalAppend(b.entries, e, FareCountWeight(d));
    }
    forall r ensures RiderConserved(after, r) {
      assert RiderConserved(b, r);
      TotalAppend(b.entries, e, CashbackWeight(r));
    }
  }

  lemma ReserveFuelConserves(b: Books, driver: DriverId, amount: real, dailyLimit: int, now: int)
    requires Conserved(b) && amount > 0.0 && ReserveFuel(b, driver, amount, dailyLimit, now).Some?
    ensures Conserved(ReserveFuel(b, driver, amount, dailyLimit, now).value)
  {
    StoredIsKobo(amount);
    AppendConserves(b, driver, Entry(None, DriverFuelSupport, DriverAccount(driver), Stored(amount), Pending, now));
  }

  lemma DebitPayoutConserves(b: Books, driver: DriverId, amount: real, now: int)
    requires Conserved(b) && amount > 0.0 && DebitPayout(b, driver, amount, now).Some?
    ensures Conserved(DebitPayout(b, driver, amount, now).value)
  {
    StoredIsKobo(amount);
    AppendConserves(b, driver, Entry(None, DriverPayout, DriverAccount(driver), Stored(-amount), Pending, now));
  }

  /** Confirming a pending entry, or leaving it pending, moves no balance. */
  lemma ConfirmConserves(b: Books, id: nat, status: Status)
    requires Conserved(b) && id < |b.entries| && b.entries[id].Stands() && (status == Completed || status == Pending)
    ensures Conserved(b.(entries := SettleEntry(b.entries, id, status)))
  {
    var after := b.(entries := SettleEntry(b.entries, id, status));
    forall d ensures DriverConserved(after, d) {
      assert DriverConserved(b, d);
      TotalSettle(b.entries, id, status, WalletWeight(d));
      TotalSettle(b.entries, id, status, FareCountWeight(d));
    }
    forall r ensures RiderConserved(after, r) {
      assert RiderConserved(b, r);
      TotalSettle(b.entries, id, status, CashbackWeight(r));
    }
  }

  /**
   * Reversing a standing entry keeps every cache true exactly when the driver
   * is gone or the reversal gives back, to the kobo, what the entry moved.
   */
  lemma ReversalConservesExactly(b: Books, driver: DriverId, delta: real, id: nat)
    requires Conserved(b) && id < |b.entries|
    requires b.entries[id].owner == DriverAccount(driver)
    requires b.entries[id].Stands() && b.entries[id].kind != RideFareDriver
    ensures Conserved(ReverseBalance(b, driver, delta, id)) <==>
              (driver in b.drivers ==> ToKobo(delta) == -b.entries[id].amount)
  {
    var after := ReverseBalance(b, driver, delta, id);
    forall d
      ensures DriverConserved(after, d) <==> (d == driver && d in b.drivers ==> ToKobo(delta) == -b.entries[id].amount)
    {
      assert DriverConserved(b, d);
      TotalSettle(b.entries, id, Failed, WalletWeight(d));
      TotalSettle(b.entries, id, Failed, FareCountWeight(d));
    }
    forall r ensures RiderConserved(after, r) {
      assert RiderConserved(b, r);
      TotalSettle(b.entries, id, Failed, CashbackWeight(r));
    }
  }
}
