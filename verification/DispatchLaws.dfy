/** What holds in every state whole calls can reach. */
module DispatchLaws {
  import opened Prelude
  import opened Fleet
  import opened Money
  import opened Ledger
  import opened Books
  import opened Rides
  import opened Dispatch

  /** The row's timestamps are in order as far as its status has come, and its driver is known from acceptance on. */
  ghost predicate RowOk(row: Ride, now: int) {
    && row.requestedAt <= now
    && (row.Active() || row.status == RideCompleted ==>
          row.driver.Some? && row.acceptedAt.Some? && row.requestedAt <= row.acceptedAt.value <= now)
    && (row.status == InProgress || row.status == RideCompleted ==>
          row.startedAt.Some? && row.acceptedAt.value <= row.startedAt.value <= now)
    && (row.status == RideCompleted ==>
          && row.completedAt.Some? && row.startedAt.value <= row.completedAt.value <= now
          && row.finalFare == Some(row.estimatedFare))
  }

  /** Exactly one exclusive ride, or at most four rides, all of them SHARED. */
  ghost predicate LoadOk(rides: map<RideId, Ride>, driver: DriverId) {
    var active := ActiveRides(rides, driver);
    || (exists r :: r in rides && active == {r} && IsExclusiveCategory(rides[r].category))
    || (|active| <= 4 && forall r :: r in active ==> rides[r].category == Shared)
  }

  /** The driver's active-ride key holds a ride they are serving. */
  ghost predicate PointerOk(w: World, driver: DriverId) {
    driver in w.activeRide ==> w.activeRide[driver] in ActiveRides(w.rides, driver)
  }

  ghost predicate FlagsOk(row: Driver) {
    row.isOnline ==> row.verification == Approved && row.isActive
  }

  /** Fare entries belong to completed rides. */
  ghost predicate EntryOk(rides: map<RideId, Ride>, e: Entry) {
    e.rideId.Some? ==> e.rideId.value in rides && rides[e.rideId.value].status == RideCompleted
  }

  ghost predicate RowsOk(w: World) {
    forall r :: r in w.rides ==> r < w.nextRide && RowOk(w.rides[r], w.now)
  }

  ghost predicate EntriesOk(rides: map<RideId, Ride>, entries: Entries) {
    forall i :: 0 <= i < |entries| ==> EntryOk(rides, entries[i])
  }

  ghost predicate Inv(w: World) {
    && RowsOk(w)
    && (forall d :: LoadOk(w.rides, d))
    && (forall d :: PointerOk(w, d))
    && (forall d :: d in w.books.drivers ==> FlagsOk(w.books.drivers[d]))
    && EntriesOk(w.rides, w.books.entries)
  }

  // ----- one row changes -----

  /** Saving one row adds it to, keeps it in or drops it from its driver's active rides. */
  lemma ActiveAfterSave(rides: map<RideId, Ride>, ride: RideId, row: Ride, driver: DriverId)
    ensures var before, after := ActiveRides(rides, driver), ActiveRides(rides[ride := row], driver);
            after == if row.driver == Some(driver) && row.Active() then before + {ride} else before - {ride}
  {
  }

  /** Dropping rides from a driver's load keeps it within the limits. */
  lemma LighterLoad(rides: map<RideId, Ride>, after: map<RideId, Ride>, driver: DriverId)
    requires LoadOk(rides, driver)
    requires ActiveRides(after, driver) <= ActiveRides(rides, driver)
    requires forall r :: r in ActiveRides(after, driver) ==> after[r].category == rides[r].category
    ensures LoadOk(after, driver)
  {
    var before, now := ActiveRides(rides, driver), ActiveRides(after, driver);
    assert before == now + (before - now);
    if exists r :: r in rides && before == {r} && IsExclusiveCategory(rides[r].category) {
      var r :| r in rides && before == {r} && IsExclusiveCategory(rides[r].category);
      if now != {} {
        assert now == {r};
      }
    }
  }

  /** A row that was not started on, or is saved by its own driver further along, or is over. */
  lemma SaveKeepsLoad(rides: map<RideId, Ride>, ride: RideId, row: Ride, driver: DriverId)
    requires LoadOk(rides, driver)
    requires row.Active() && row.driver == Some(driver) ==>
               ride in ActiveRides(rides, driver) && row.category == rides[ride].category
    ensures LoadOk(rides[ride := row], driver)
  {
    ActiveAfterSave(rides, ride, row, driver);
    LighterLoad(rides, rides[ride := row], driver);
  }

  lemma TwoWithAnExclusive(rides: map<RideId, Ride>, driver: DriverId, exclusive: RideId, other: RideId)
    requires exclusive in ActiveRides(rides, driver) && other in ActiveRides(rides, driver) && exclusive != other
    requires IsExclusiveCategory(rides[exclusive].category)
    ensures !LoadOk(rides, driver)
  {
  }

  /** The load checks pass exactly when one more active ride keeps the driver within the limits. */
  lemma LoadErrorIsExact(rides: map<RideId, Ride>, ride: RideId, row: Ride, driver: DriverId)
    requires LoadOk(rides, driver) && ride !in ActiveRides(rides, driver)
    requires row.Active() && row.driver == Some(driver)
    ensures LoadError(rides, driver, row.category).None? <==> LoadOk(rides[ride := row], driver)
  {
    var after := rides[ride := row];
    var before, now := ActiveRides(rides, driver), ActiveRides(after, driver);
    ActiveAfterSave(rides, ride, row, driver);
    assert now == before + {ride} && |now| == |before| + 1;
    if exists r :: r in before && IsExclusiveCategory(rides[r].category) {
      var r :| r in before && IsExclusiveCategory(rides[r].category);
      TwoWithAnExclusive(after, driver, r, ride);
    } else if IsExclusiveCategory(row.category) {
      if before == {} {
        assert now == {ride};
      } else {
        var r :| r in before;
        TwoWithAnExclusive(after, driver, ride, r);
      }
    } else {
      PoolGrowsExactly(rides, ride, row, driver);
    }
  }

  lemma PoolGrowsExactly(rides: map<RideId, Ride>, ride: RideId, row: Ride, driver: DriverId)
    requires ActiveRides(rides[ride := row], driver) == ActiveRides(rides, driver) + {ride}
    requires |ActiveRides(rides[ride := row], driver)| == |ActiveRides(rides, driver)| + 1
    requires row.category == Shared && ride !in ActiveRides(rides, driver)
    requires forall r :: r in ActiveRides(rides, driver) ==> !IsExclusiveCategory(rides[r].category)
    ensures |ActiveRides(rides, driver)| < MAX_ACTIVE_SHARED_RIDES <==> LoadOk(rides[ride := row], driver)
  {
    var after := rides[ride := row];
    forall r | r in ActiveRides(after, driver) ensures after[r].category == Shared {
      assert r == ride || r in ActiveRides(rides, driver);
      OnlySharedPools(after[r].category);
    }
  }

  lemma AcceptKeepsLoad(w: World, ride: RideId, driver: DriverId, vehicle: VehicleId, d: DriverId)
    requires LoadOk(w.rides, d) && AcceptError(w, ride, driver, vehicle).None?
    ensures LoadOk(w.rides[ride := AcceptedBy(w.rides[ride], driver, vehicle, w.now)], d)
  {
    var row := AcceptedBy(w.rides[ride], driver, vehicle, w.now);
    if d == driver { LoadErrorIsExact(w.rides, ride, row, d); } else { SaveKeepsLoad(w.rides, ride, row, d); }
  }

  /**
   * The load checks refuse exactly the accepts that would break the limits:
   * with everything else in order, acceptRide succeeds if and only if the
   * driver's load is still within them afterwards.
   */
  lemma LoadChecksAreExact(w: World, ride: RideId, driver: DriverId, vehicle: VehicleId)
    requires Inv(w) && PartyError(w, ride, driver, vehicle).None?
    ensures AcceptRide(w, ride, driver, vehicle).Success? <==>
              LoadOk(w.rides[ride := AcceptedBy(w.rides[ride], driver, vehicle, w.now)], driver)
  {
    LoadErrorIsExact(w.rides, ride, AcceptedBy(w.rides[ride], driver, vehicle, w.now), driver);
  }

  lemma SaveKeepsEntries(rides: map<RideId, Ride>, ride: RideId, row: Ride, entries: Entries)
    requires EntriesOk(rides, entries)
    requires ride in rides && rides[ride].status == RideCompleted ==> row.status == RideCompleted
    ensures EntriesOk(rides[ride := row], entries)
  {
  }

  // ----- every call -----

  lemma CreateKeepsInv(w: World, user: UserId, km: nat, category: RideCategory)
    requires Inv(w)
    ensures Inv(Outcome(w, CreateRide(w, user, km, category)))
  {
    var row := NewRide(user, km, category, w.now);
    assert w.nextRide !in w.rides;
    var rides := w.rides[w.nextRide := row];
    forall d ensures LoadOk(rides, d) {
      SaveKeepsLoad(w.rides, w.nextRide, row, d);
    }
    forall d ensures PointerOk(Outcome(w, CreateRide(w, user, km, category)), d) {
      assert PointerOk(w, d);
      ActiveAfterSave(w.rides, w.nextRide, row, d);
    }
    SaveKeepsEntries(w.rides, w.nextRide, row, w.books.entries);
  }

  lemma AcceptKeepsInv(w: World, ride: RideId, driver: DriverId, vehicle: VehicleId)
    requires Inv(w)
    ensures Inv(Outcome(w, AcceptRide(w, ride, driver, vehicle)))
  {
    if AcceptError(w, ride, driver, vehicle).None? {
      var row := AcceptedBy(w.rides[ride], driver, vehicle, w.now);
      var after := AcceptRide(w, ride, driver, vehicle).value;
      forall d ensures LoadOk(after.rides, d) {
        AcceptKeepsLoad(w, ride, driver, vehicle, d);
      }
      forall d ensures PointerOk(after, d) {
        assert PointerOk(w, d);
        ActiveAfterSave(w.rides, ride, row, d);
        assert ride !in ActiveRides(w.rides, d);
      }
      SaveKeepsEntries(w.rides, ride, row, w.books.entries);
    }
  }

  /** A row moves on under its driver. */
  lemma ProgressKeepsInv(w: World, ride: RideId, row: Ride)
    requires Inv(w) && ride in w.rides && w.rides[ride].Active() && row.Active() && RowOk(row, w.now)
    requires row.driver == w.rides[ride].driver && row.category == w.rides[ride].category
    ensures Inv(w.(rides := w.rides[ride := row]))
  {
    var after := w.(rides := w.rides[ride := row]);
    forall d ensures LoadOk(after.rides, d) {
      SaveKeepsLoad(w.rides, ride, row, d);
    }
    forall d ensures PointerOk(after, d) {
      assert PointerOk(w, d);
      ActiveAfterSave(w.rides, ride, row, d);
    }
    SaveKeepsEntries(w.rides, ride, row, w.books.entries);
  }

  /** A row is over, and its driver's pointer goes. */
  lemma EndingKeepsInv(w: World, ride: RideId, row: Ride, after: World)
    requires Inv(w) && ride in w.rides && row.Over() && RowOk(row, w.now) && row.driver == w.rides[ride].driver
    requires w.rides[ride].status != RideCompleted
    requires after.rides == w.rides[ride := row] && after.nextRide == w.nextRide && after.now == w.now
    requires after.activeRide == if row.driver.Some? then w.activeRide - {row.driver.value} else w.activeRide
    requires forall d :: d in after.books.drivers ==> FlagsOk(after.books.drivers[d])
    requires EntriesOk(after.rides, after.books.entries)
    ensures Inv(after)
  {
    forall d ensures LoadOk(after.rides, d) {
      SaveKeepsLoad(w.rides, ride, row, d);
    }
    forall d ensures PointerOk(after, d) {
      assert PointerOk(w, d);
      ActiveAfterSave(w.rides, ride, row, d);
    }
  }

  lemma CompleteKeepsInv(w: World, ride: RideId, driver: DriverId)
    requires Inv(w)
    ensures Inv(Outcome(w, CompleteRide(w, ride, driver)))
  {
    var answer := CompleteRide(w, ride, driver);
    if answer.Success? && answer.value != w {
      var row := w.rides[ride];
      SaveKeepsEntries(w.rides, ride, FinishedRow(row, w.now), w.books.entries);
      var rows := FareEntries(ride, driver, row.user, SplitFareKobo(ToNaira(row.estimatedFare)), w.now);
      assert answer.value.books.entries == w.books.entries + rows;
      forall i | 0 <= i < |answer.value.books.entries|
        ensures EntryOk(answer.value.rides, answer.value.books.entries[i])
      {
        if i < |w.books.entries| { assert EntryOk(answer.value.rides, w.books.entries[i]); }
      }
      EndingKeepsInv(w, ride, FinishedRow(row, w.now), answer.value);
    }
  }

  lemma CancelKeepsInv(w: World, ride: RideId, who: Canceller)
    requires Inv(w)
    ensures Inv(Outcome(w, CancelRide(w, ride, who)))
  {
    var answer := CancelRide(w, ride, who);
    if answer.Success? {
      var row := CancelledRow(w.rides[ride], who).value;
      SaveKeepsEntries(w.rides, ride, row, w.books.entries);
      EndingKeepsInv(w, ride, row, answer.value);
    }
  }

  lemma DriverCallsKeepInv(w: World, driver: DriverId, row: Driver)
    requires Inv(w) && FlagsOk(row)
    ensures Inv(WithDriver(w, driver, row))
  {
    forall d ensures PointerOk(WithDriver(w, driver, row), d) {
      assert PointerOk(w, d);
    }
  }

  lemma CallKeepsInv(w: World, call: Call)
    requires Inv(w)
    ensures Inv(Outcome(w, Do(w, call)))
  {
    match call
    case Create(user, km, category) => CreateKeepsInv(w, user, km, category);
    case Accept(ride, driver, vehicle) => AcceptKeepsInv(w, ride, driver, vehicle);
    case Arrive(ride, driver) =>
      if Do(w, call).Success? { ProgressKeepsInv(w, ride, ArrivedRow(w.rides[ride], driver).value); }
    case Start(ride, driver) =>
      if Do(w, call).Success? { ProgressKeepsInv(w, ride, StartedRow(w.rides[ride], driver, w.now).value); }
    case Complete(ride, driver) => CompleteKeepsInv(w, ride, driver);
    case Cancel(ride, who) => CancelKeepsInv(w, ride, who);
    case SetOnline(driver, isOnline) =>
      if Do(w, call).Success? { DriverCallsKeepInv(w, driver, w.books.drivers[driver].(isOnline := isOnline)); }
    case SetVerification(driver, status) =>
      if driver in w.books.drivers {
        DriverCallsKeepInv(w, driver, UpdateVerificationStatus(w, driver, status).value.books.drivers[driver]);
      }
    case SetActive(driver, isActive) =>
      if driver in w.books.drivers {
        DriverCallsKeepInv(w, driver, UpdateActiveStatus(w, driver, isActive).value.books.drivers[driver]);
      }
    case Register(driver, approved) => DriverCallsKeepInv(w, driver, NewDriver(approved));
    case _ => HousekeepingKeepsInv(w, Outcome(w, Do(w, call)));
  }

  lemma HousekeepingKeepsInv(w: World, after: World)
    requires Inv(w) && after.rides == w.rides && after.nextRide == w.nextRide && after.now >= w.now
    requires after.books.drivers == w.books.drivers && after.books.entries == w.books.entries
    requires forall d :: d in after.activeRide ==> d in w.activeRide && after.activeRide[d] == w.activeRide[d]
    ensures Inv(after)
  {
    forall d ensures PointerOk(after, d) {
      assert PointerOk(w, d);
    }
  }

  /**
   * In every reachable state: each driver serves one exclusive ride or at most
   * four shared ones; a pointer names a ride its driver is serving; an online
   * driver is approved and active; completed rides were requested, accepted,
   * started and completed in that order; fare entries belong to completed rides.
   */
  lemma {:induction false} EveryRunKeepsInv(calls: seq<Call>)
    ensures Inv(Run(EMPTY, calls))
  {
    if calls == [] {
      assert forall d :: ActiveRides(EMPTY.rides, d) == {};
    } else {
      EveryRunKeepsInv(calls[..|calls| - 1]);
      CallKeepsInv(Run(EMPTY, calls[..|calls| - 1]), calls[|calls| - 1]);
    }
  }

  /** Although acceptRide never reads the verification status, whoever it accepts is approved. */
  lemma OnlyApprovedDriversAccept(calls: seq<Call>, ride: RideId, driver: DriverId, vehicle: VehicleId)
    requires AcceptRide(Run(EMPTY, calls), ride, driver, vehicle).Success?
    ensures var drivers := Run(EMPTY, calls).books.drivers;
            driver in drivers && drivers[driver].verification == Approved
  {
    EveryRunKeepsInv(calls);
    var w := Run(EMPTY, calls);
    assert FlagsOk(w.books.drivers[driver]);
  }

  function WithoutReason(row: Ride): Ride {
    row.(cancellationReason := None)
  }

  /** The call cancels a cancelled ride again, for another reason. */
  predicate Rewrites(w: World, call: Call, ride: RideId) {
    && call.Cancel? && call.ride == ride && ride in w.rides && w.rides[ride].status == RideCancelled
    && CancelledRow(w.rides[ride], call.who).Success?
    && w.rides[ride].cancellationReason != Some(ReasonText(call.who))
  }

  /** The row is there, and differs in the cancellation reason at most. */
  predicate KeepsAllButReason(rides: map<RideId, Ride>, after: map<RideId, Ride>, ride: RideId) {
    ride in rides && ride in after && WithoutReason(after[ride]) == WithoutReason(rides[ride])
  }

  lemma CancelKeepsOver(w: World, r: RideId, who: Canceller, ride: RideId)
    requires ride in w.rides && w.rides[ride].Over()
    ensures var after := Outcome(w, CancelRide(w, r, who)).rides;
            && KeepsAllButReason(w.rides, after, ride)
            && (after[ride] == w.rides[ride] <==> !Rewrites(w, Cancel(r, who), ride))
  {
  }

  lemma CompleteKeepsOver(w: World, r: RideId, driver: DriverId, ride: RideId)
    requires ride in w.rides && w.rides[ride].Over()
    ensures var after := Outcome(w, CompleteRide(w, r, driver)).rides; ride in after && after[ride] == w.rides[ride]
  {
  }

  lemma AcceptKeepsOver(w: World, r: RideId, driver: DriverId, vehicle: VehicleId, ride: RideId)
    requires ride in w.rides && w.rides[ride].Over()
    ensures var after := Outcome(w, AcceptRide(w, r, driver, vehicle)).rides;
            ride in after && after[ride] == w.rides[ride]
  {
  }

  lemma ProgressKeepsOver(w: World, r: RideId, driver: DriverId, ride: RideId)
    requires ride in w.rides && w.rides[ride].Over()
    ensures var after := Outcome(w, MarkArrived(w, r, driver)).rides; ride in after && after[ride] == w.rides[ride]
    ensures var after := Outcome(w, StartRide(w, r, driver)).rides; ride in after && after[ride] == w.rides[ride]
  {
  }

  lemma SparedRows(w: World, call: Call)
    requires !call.Create? && !call.Accept? && !call.Arrive? && !call.Start? && !call.Complete? && !call.Cancel?
    ensures Outcome(w, Do(w, call)).rides == w.rides
  {
  }

  /** A call changes the row of a ride that is over if and only if it cancels it again, for another reason. */
  lemma OverChangesExactly(w: World, call: Call, ride: RideId)
    requires RowsOk(w) && ride in w.rides && w.rides[ride].Over()
    ensures var after := Outcome(w, Do(w, call)).rides;
            && KeepsAllButReason(w.rides, after, ride)
            && (after[ride] == w.rides[ride] <==> !Rewrites(w, call, ride))
  {
    match call
    case Create(_, _, _) =>
    case Accept(r, driver, vehicle) => AcceptKeepsOver(w, r, driver, vehicle, ride);
    case Arrive(r, driver) => ProgressKeepsOver(w, r, driver, ride);
    case Start(r, driver) => ProgressKeepsOver(w, r, driver, ride);
    case Cancel(r, who) => CancelKeepsOver(w, r, who, ride);
    case Complete(r, driver) => CompleteKeepsOver(w, r, driver, ride);
    case _ => SparedRows(w, call);
  }

  /** A completed row never changes again, and a cancelled one only in its reason. */
  lemma {:induction false} OverIsFinal(w: World, calls: seq<Call>, ride: RideId)
    requires Inv(w) && ride in w.rides && w.rides[ride].Over()
    ensures var after := Run(w, calls);
            && Inv(after) && KeepsAllButReason(w.rides, after.rides, ride)
            && (w.rides[ride].status == RideCompleted ==> after.rides[ride] == w.rides[ride])
  {
    if calls != [] {
      var before, last := Run(w, calls[..|calls| - 1]), calls[|calls| - 1];
      OverIsFinal(w, calls[..|calls| - 1], ride);
      CallKeepsInv(before, last);
      assert WithoutReason(before.rides[ride]).status == before.rides[ride].status;
      OverChangesExactly(before, last, ride);
    }
  }

  /**
   * Completing drops the driver's pointer; they are free again exactly when
   * that was their only active ride. A pooled driver goes on without a pointer.
   */
  lemma CompletionFreesTheDriverExactly(calls: seq<Call>, ride: RideId, driver: DriverId)
    requires var w := Run(EMPTY, calls); CompleteRide(w, ride, driver).Success? && w.rides[ride].status == InProgress
    ensures var w := Run(EMPTY, calls);
            var after := CompleteRide(w, ride, driver).value;
            && driver !in after.activeRide
            && ActiveRides(after.rides, driver) == ActiveRides(w.rides, driver) - {ride}
            && (ActiveRides(after.rides, driver) == {} <==> |ActiveRides(w.rides, driver)| == 1)
  {
    var w := Run(EMPTY, calls);
    var before := ActiveRides(w.rides, driver);
    ActiveAfterSave(w.rides, ride, FinishedRow(w.rides[ride], w.now), driver);
    assert ride in before;
    assert before == (before - {ride}) + {ride};
  }

  // ----- the projected breakdown is what is paid -----

  lemma {:induction false} AmountForSkips(entries: Entries, rows: Entries, ride: RideId, kind: EntryType)
    requires forall i :: 0 <= i < |entries| ==> entries[i].rideId != Some(ride)
    ensures AmountFor(entries + rows, ride, kind) == AmountFor(rows, ride, kind)
  {
    if entries == [] {
      assert entries + rows == rows;
    } else {
      assert (entries + rows)[1..] == entries[1..] + rows;
      AmountForSkips(entries[1..], rows, ride, kind);
    }
  }

  /** The breakdown shown before completion is, to the kobo, the one the ledger shows after it. */
  lemma ProjectionIsPaid(calls: seq<Call>, ride: RideId, driver: DriverId)
    requires var w := Run(EMPTY, calls); CompleteRide(w, ride, driver).Success?
    ensures var w := Run(EMPTY, calls);
            var after := CompleteRide(w, ride, driver).value;
            ride in after.rides && GetFareBreakdown(after, ride) == GetFareBreakdown(w, ride)
  {
    EveryRunKeepsInv(calls);
    var w := Run(EMPTY, calls);
    var row := w.rides[ride];
    if row.status == InProgress {
      var entries, split := w.books.entries, SplitFareKobo(ToNaira(row.estimatedFare));
      var rows := FareEntries(ride, driver, row.user, split, w.now);
      forall i | 0 <= i < |entries| ensures entries[i].rideId != Some(ride) {
        assert EntryOk(w.rides, entries[i]);
      }
      AmountForSkips(entries, rows, ride, RideFareDriver);
      AmountForSkips(entries, rows, ride, RideFarePlatform);
      AmountForSkips(entries, rows, ride, RideFareRiderCashback);
      AmountsOfFareEntries(rows, ride, driver, row.user, split, w.now);
      KoboRoundTrip(row.estimatedFare);
    }
  }

  lemma AmountsOfFareEntries(rows: Entries, ride: RideId, driver: DriverId, rider: UserId, split: FareSplit, now: int)
    requires rows == FareEntries(ride, driver, rider, split, now)
    ensures AmountFor(rows, ride, RideFareDriver) == split.driverKobo
    ensures AmountFor(rows, ride, RideFarePlatform) == split.platformKobo
    ensures AmountFor(rows, ride, RideFareRiderCashback) == split.riderKobo
  {
    assert AmountFor(rows[1..], ride, RideFarePlatform) == split.platformKobo;
    assert rows[1..][1..] == rows[2..];
    assert AmountFor(rows[2..], ride, RideFareRiderCashback) == split.riderKobo;
    assert AmountFor(rows[1..], ride, RideFareRiderCashback) == AmountFor(rows[2..], ride, RideFareRiderCashback);
  }
}
