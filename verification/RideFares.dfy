/** From the quote a ride is created with to what its parties are paid, in every run of whole calls. */
module RideFares {
  import opened Prelude
  import opened Money
  import opened Ledger
  import opened Books
  import opened Rides
  import opened Dispatch
  import opened DispatchLaws
  import opened RideCalls

  // ----- the quote -----

  /** The ride, its category and its quote are those of this call. */
  predicate AsOrdered(row: Ride, order: Call)
    requires order.Create?
  {
    && row.user == order.user && row.category == order.category
    && row.estimatedFare == PriceInKobo(order.hundredthsKm, order.category)
  }

  /** The i-th call of the run created the ride, out of nothing. */
  ghost predicate CreatedBy(calls: seq<Call>, ride: RideId, i: nat) {
    && i < |calls| && calls[i].Create?
    && ride !in Run(EMPTY, calls[..i]).rides && ride in Run(EMPTY, calls[..i + 1]).rides
  }

  lemma CreateKeepsOrders(w: World, order: Call, ride: RideId)
    requires RowsOk(w) && order.Create? && ride in Outcome(w, Do(w, order)).rides
    ensures var after := Outcome(w, Do(w, order)).rides;
            if ride in w.rides then after[ride] == w.rides[ride] else AsOrdered(after[ride], order)
  {
    CreateExactly(w, order.user, order.hundredthsKm, order.category);
  }

  lemma OthersKeepOrders(w: World, call: Call, ride: RideId)
    requires !call.Create? && ride in Outcome(w, Do(w, call)).rides
    ensures var after := Outcome(w, Do(w, call)).rides;
            && ride in w.rides && after[ride].user == w.rides[ride].user
            && after[ride].category == w.rides[ride].category
            && after[ride].estimatedFare == w.rides[ride].estimatedFare
  {
  }

  lemma CreationIsHistory(calls: seq<Call>, more: Call, ride: RideId, i: nat)
    requires CreatedBy(calls, ride, i)
    ensures CreatedBy(calls + [more], ride, i)
  {
    assert (calls + [more])[..i] == calls[..i] && (calls + [more])[..i + 1] == calls[..i + 1];
  }

  /** Whatever has become of it since, a ride has the rider, category and price of the call that created it. */
  lemma {:induction false} EveryRideKeepsItsQuote(calls: seq<Call>, ride: RideId) returns (i: nat)
    requires ride in Run(EMPTY, calls).rides
    ensures CreatedBy(calls, ride, i) && AsOrdered(Run(EMPTY, calls).rides[ride], calls[i])
  {
    var front, last := calls[..|calls| - 1], calls[|calls| - 1];
    var before := Run(EMPTY, front);
    EveryRunKeepsInv(front);
    assert calls == front + [last];
    if last.Create? { CreateKeepsOrders(before, last, ride); } else { OthersKeepOrders(before, last, ride); }
    if ride in before.rides {
      i := EveryRideKeepsItsQuote(front, ride);
      CreationIsHistory(front, last, ride, i);
    } else {
      i := |front|;
      assert calls[..i] == front && calls[..i + 1] == calls;
    }
  }

  // ----- the payment -----

  /** These entries stand at k, and no other entry is of the ride. */
  predicate PaidAt(entries: Entries, ride: RideId, rows: Entries, k: nat) {
    && k + |rows| <= |entries| && entries[k..k + |rows|] == rows
    && forall i :: 0 <= i < |entries| && (i < k || i >= k + |rows|) ==> entries[i].rideId != Some(ride)
  }

  /** What a completed ride's row says was paid. */
  function RowsOf(ride: RideId, row: Ride): Entries
    requires row.driver.Some? && row.completedAt.Some?
  {
    FareRows(ride, row.driver.value, row.user, row.estimatedFare, row.completedAt.value)
  }

  /** A ride is paid exactly when it is completed. */
  ghost predicate FareOk(entries: Entries, ride: RideId, row: Ride) {
    if row.status == RideCompleted then
      row.driver.Some? && row.completedAt.Some? && exists k: nat :: PaidAt(entries, ride, RowsOf(ride, row), k)
    else forall i :: 0 <= i < |entries| ==> entries[i].rideId != Some(ride)
  }

  ghost predicate FaresOk(w: World) {
    forall r :: r in w.rides ==> FareOk(w.books.entries, r, w.rides[r])
  }

  lemma OthersKeepPaid(entries: Entries, rows: Entries, ride: RideId, row: Ride)
    requires FareOk(entries, ride, row)
    requires forall i :: 0 <= i < |rows| ==> rows[i].rideId != Some(ride)
    ensures FareOk(entries + rows, ride, row)
  {
    if row.status == RideCompleted {
      var k: nat :| PaidAt(entries, ride, RowsOf(ride, row), k);
      assert (entries + rows)[k..k + 3] == entries[k..k + 3];
      assert PaidAt(entries + rows, ride, RowsOf(ride, row), k);
    }
  }

  lemma SettlingKeepsFares(w: World, ride: RideId, driver: DriverId)
    requires FaresOk(w) && ride in w.rides && PartiesExist(w, ride, driver)
    requires w.rides[ride].driver == Some(driver) && w.rides[ride].status == InProgress
    ensures FaresOk(Settled(w, ride, driver))
  {
    var row, after := w.rides[ride], Settled(w, ride, driver);
    var entries, rows := w.books.entries, FareRows(ride, driver, row.user, row.estimatedFare, w.now);
    forall r | r in after.rides ensures FareOk(after.books.entries, r, after.rides[r]) {
      if r == ride {
        assert FareOk(entries, ride, row);
        assert (entries + rows)[|entries|..|entries| + 3] == rows;
        assert PaidAt(entries + rows, ride, RowsOf(ride, after.rides[ride]), |entries|);
      } else {
        OthersKeepPaid(entries, rows, r, w.rides[r]);
      }
    }
  }

  /** A call other than a completion leaves the ledger alone, and completes or reopens no ride. */
  lemma OthersKeepFares(w: World, call: Call)
    requires Inv(w) && FaresOk(w) && !call.Complete?
    ensures FaresOk(Outcome(w, Do(w, call)))
  {
    var after := Outcome(w, Do(w, call));
    forall r | r in after.rides ensures FareOk(after.books.entries, r, after.rides[r]) {
      OthersKeepLedger(w, call, r);
      if r !in w.rides { NewRidesAreUnpaid(w, r); }
    }
  }

  lemma OthersKeepLedger(w: World, call: Call, r: RideId)
    requires RowsOk(w) && !call.Complete? && r in Outcome(w, Do(w, call)).rides
    ensures var after := Outcome(w, Do(w, call));
            && after.books.entries == w.books.entries
            && (if r in w.rides then
                  if w.rides[r].status == RideCompleted then after.rides[r] == w.rides[r]
                  else after.rides[r].status != RideCompleted
                else after.rides[r].status == Requested)
  {
  }

  lemma NewRidesAreUnpaid(w: World, r: RideId)
    requires EntriesOk(w.rides, w.books.entries) && r !in w.rides
    ensures forall i :: 0 <= i < |w.books.entries| ==> w.books.entries[i].rideId != Some(r)
  {
    forall i | 0 <= i < |w.books.entries| ensures w.books.entries[i].rideId != Some(r) {
      assert EntryOk(w.rides, w.books.entries[i]);
    }
  }

  lemma {:induction false} RunKeepsFares(calls: seq<Call>)
    ensures FaresOk(Run(EMPTY, calls))
  {
    if calls != [] {
      var front, last := calls[..|calls| - 1], calls[|calls| - 1];
      var before := Run(EMPTY, front);
      RunKeepsFares(front);
      EveryRunKeepsInv(front);
      if last.Complete? {
        CompleteExactly(before, last.ride, last.driver);
        if CompleteRide(before, last.ride, last.driver).Success? && before.rides[last.ride].status == InProgress {
          SettlingKeepsFares(before, last.ride, last.driver);
        }
      } else {
        OthersKeepFares(before, last);
      }
    }
  }

  /**
   * In every run, a completed ride has been paid once, to its driver, the
   * platform and the rider who ordered it: 95%, the rest and 1% of the price
   * list's fare for the distance and category it was ordered with. No other
   * ride has been paid anything.
   */
  lemma EveryRideIsPaidItsPrice(calls: seq<Call>, ride: RideId) returns (i: nat)
    requires ride in Run(EMPTY, calls).rides
    ensures CreatedBy(calls, ride, i)
    ensures var w := Run(EMPTY, calls);
            var row, order := w.rides[ride], calls[i];
            if row.status == RideCompleted then
              && row.driver.Some? && row.completedAt.Some?
              && var fare := PriceInKobo(order.hundredthsKm, order.category);
              && row.finalFare == Some(fare)
              && var rows := FareRows(ride, row.driver.value, order.user, fare, row.completedAt.value);
              && exists k: nat :: PaidAt(w.books.entries, ride, rows, k)
            else forall j :: 0 <= j < |w.books.entries| ==> w.books.entries[j].rideId != Some(ride)
  {
    i := EveryRideKeepsItsQuote(calls, ride);
    RunKeepsFares(calls);
    EveryRunKeepsInv(calls);
    var w := Run(EMPTY, calls);
    assert FareOk(w.books.entries, ride, w.rides[ride]) && RowOk(w.rides[ride], w.now);
  }

  // ----- the breakdown -----

  lemma {:induction false} AmountAt(entries: Entries, ride: RideId, kind: EntryType, k: nat)
    requires k < |entries| && entries[k].rideId == Some(ride) && entries[k].kind == kind
    requires forall i :: 0 <= i < k ==> !(entries[i].rideId == Some(ride) && entries[i].kind == kind)
    ensures AmountFor(entries, ride, kind) == entries[k].amount
  {
    if k > 0 { AmountAt(entries[1..], ride, kind, k - 1); }
  }

  lemma AmountsPaid(entries: Entries, ride: RideId, driver: DriverId, rider: UserId, fare: int, at: int, k: nat)
    requires PaidAt(entries, ride, FareRows(ride, driver, rider, fare, at), k)
    ensures AmountFor(entries, ride, RideFareDriver) == 95 * fare / 100
    ensures AmountFor(entries, ride, RideFarePlatform) == fare - 95 * fare / 100 - fare / 100
    ensures AmountFor(entries, ride, RideFareRiderCashback) == fare / 100
  {
    var rows := FareRows(ride, driver, rider, fare, at);
    var paid := entries[k..k + 3];
    assert entries[k] == paid[0] == rows[0] && entries[k + 1] == paid[1] == rows[1] && entries[k + 2] == paid[2];
    AmountAt(entries, ride, RideFareDriver, k);
    AmountAt(entries, ride, RideFarePlatform, k + 1);
    AmountAt(entries, ride, RideFareRiderCashback, k + 2);
  }

  /**
   * At any time in any run, both parties see the quote and its 95%, its rest
   * and its 1%: as a projection before completion, from the ledger after it.
   */
  lemma BreakdownIsTheQuote(calls: seq<Call>, ride: RideId)
    requires ride in Run(EMPTY, calls).rides
    ensures var w := Run(EMPTY, calls);
            var fare := w.rides[ride].estimatedFare;
            GetFareBreakdown(w, ride)
            == FareSplit(fare, 95 * fare / 100, fare - 95 * fare / 100 - fare / 100, fare / 100)
  {
    RunKeepsFares(calls);
    EveryRunKeepsInv(calls);
    var w := Run(EMPTY, calls);
    var row, entries := w.rides[ride], w.books.entries;
    assert FareOk(entries, ride, row) && RowOk(row, w.now);
    if row.status == RideCompleted {
      var k: nat :| PaidAt(entries, ride, RowsOf(ride, row), k);
      AmountsPaid(entries, ride, row.driver.value, row.user, row.estimatedFare, row.completedAt.value, k);
    } else {
      FareRowsAreWritten(ride, 0, row.user, row.estimatedFare, 0);
    }
  }
}
