/** What each ride and driver call answers, and what it leaves behind, as its caller sees it. */
module RideCalls {
  import opened Prelude
  import opened Fleet
  import opened Money
  import opened Ledger
  import opened Books
  import opened Rides
  import opened Dispatch
  import opened DispatchLaws

  // ----- create -----

  /**
   * A ride is created for every rider who is not blocked: REQUESTED, without a
   * driver, and quoted at the price list's fare for its distance and category.
   */
  lemma CreateExactly(w: World, user: UserId, hundredthsKm: nat, category: RideCategory)
    ensures var answer := CreateRide(w, user, hundredthsKm, category);
            && (answer == Failure(NotFound) <==> user !in w.books.riders)
            && (answer == Failure(Forbidden) <==> user in w.books.riders && w.books.riders[user].isBlocked)
            && (answer.Success? <==> user in w.books.riders && !w.books.riders[user].isBlocked)
            && (answer.Success? ==>
                  var quote := PriceInKobo(hundredthsKm, category);
                  var row := Ride(user, None, None, category, quote, None, Requested, w.now, None, None, None, None);
                  answer.value == w.(rides := w.rides[w.nextRide := row], nextRide := w.nextRide + 1))
  {
    FareIsWholeKobo(hundredthsKm, category);
  }

  // ----- accept -----

  predicate IsOpen(w: World, ride: RideId) {
    ride in w.rides && w.rides[ride].status == Requested
  }

  predicate OnDuty(w: World, driver: DriverId) {
    driver in w.books.drivers && w.books.drivers[driver].isActive && w.books.drivers[driver].isOnline
  }

  predicate Drives(w: World, driver: DriverId, vehicle: VehicleId) {
    vehicle in w.vehicles && w.vehicles[vehicle].owner == driver && w.vehicles[vehicle].isActive
  }

  /** The category is one the vehicle's owner is offered for it. */
  predicate Serves(w: World, vehicle: VehicleId, category: RideCategory) {
    vehicle in w.vehicles && category in AllowedCategories({w.vehicles[vehicle].kind})
  }

  /** Everything is in order but, possibly, the driver's load. */
  predicate InOrder(w: World, ride: RideId, driver: DriverId, vehicle: VehicleId) {
    && IsOpen(w, ride) && OnDuty(w, driver) && Drives(w, driver, vehicle)
    && Serves(w, vehicle, w.rides[ride].category)
  }

  /** The row once the driver has it. */
  function Taken(w: World, ride: RideId, driver: DriverId, vehicle: VehicleId): Ride
    requires ride in w.rides
  {
    w.rides[ride].(driver := Some(driver), vehicle := Some(vehicle), status := Accepted, acceptedAt := Some(w.now))
  }

  /**
   * An accept succeeds exactly for an open ride, a driver on duty, an active
   * vehicle of theirs that is offered the category, and a load that stays
   * within the pooling limits with the ride added. It then changes that row
   * and the driver's pointer, and nothing else.
   */
  lemma AcceptExactly(w: World, ride: RideId, driver: DriverId, vehicle: VehicleId)
    requires Inv(w)
    ensures var answer := AcceptRide(w, ride, driver, vehicle);
            && (answer.Success? <==>
                  && InOrder(w, ride, driver, vehicle)
                  && LoadOk(w.rides[ride := Taken(w, ride, driver, vehicle)], driver))
            && (answer.Success? ==>
                  answer.value == w.(rides := w.rides[ride := Taken(w, ride, driver, vehicle)],
                                     activeRide := w.activeRide[driver := ride]))
  {
    if IsOpen(w, ride) { LoadErrorIsExact(w.rides, ride, Taken(w, ride, driver, vehicle), driver); }
  }

  /** The driver serves no ride but shared ones. */
  ghost predicate Pools(w: World, driver: DriverId) {
    forall r :: r in ActiveRides(w.rides, driver) ==> w.rides[r].category == Shared
  }

  /** A refused accept names the first thing that is wrong. */
  lemma AcceptRefusals(w: World, ride: RideId, driver: DriverId, vehicle: VehicleId)
    ensures var answer := AcceptRide(w, ride, driver, vehicle);
            && (answer == Failure(NotFound) <==> ride !in w.rides)
            && (answer == Failure(InvalidState) <==> ride in w.rides && !IsOpen(w, ride))
            && (answer == Failure(DriverUnavailable) <==> IsOpen(w, ride) && !OnDuty(w, driver))
            && (answer == Failure(BadVehicle) <==>
                  IsOpen(w, ride) && OnDuty(w, driver) && !Drives(w, driver, vehicle))
            && (answer == Failure(WrongVehicleType) <==>
                  && IsOpen(w, ride) && OnDuty(w, driver) && Drives(w, driver, vehicle)
                  && !Serves(w, vehicle, w.rides[ride].category))
            && (answer == Failure(OnExclusiveRide) <==> InOrder(w, ride, driver, vehicle) && !Pools(w, driver))
            && (answer == Failure(NotFree) <==>
                  && InOrder(w, ride, driver, vehicle) && Pools(w, driver)
                  && w.rides[ride].category != Shared && ActiveRides(w.rides, driver) != {})
            && (answer == Failure(PoolFull) <==>
                  && InOrder(w, ride, driver, vehicle) && Pools(w, driver)
                  && w.rides[ride].category == Shared && |ActiveRides(w.rides, driver)| >= 4)
  {
  }

  /** The rides a driver is shown: open, and of a category one of their active vehicles is offered. */
  function AvailableRides(w: World, driver: DriverId): set<RideId> {
    var owned := set v | Drives(w, driver, v) && v in w.vehicles :: w.vehicles[v].kind;
    set r | r in w.rides && w.rides[r].status == Requested && w.rides[r].category in AllowedCategories(owned)
  }

  /** Those are the rides they could accept with some vehicle, as far as their load allows. */
  lemma OffersAreAcceptable(w: World, ride: RideId, driver: DriverId)
    requires Inv(w) && OnDuty(w, driver)
    ensures (exists v :: AcceptRide(w, ride, driver, v).Success?)
            <==> && ride in AvailableRides(w, driver)
                 && LoadOk(w.rides[ride := Taken(w, ride, driver, 0)], driver)
  {
    if ride in AvailableRides(w, driver) {
      var v :| v in w.vehicles && w.vehicles[v].owner == driver && w.vehicles[v].isActive
               && RequiredVehicle(w.rides[ride].category) == w.vehicles[v].kind;
      AcceptExactly(w, ride, driver, v);
      AnyVehicleLoads(w, ride, driver, v);
    }
    forall v | AcceptRide(w, ride, driver, v).Success?
      ensures ride in AvailableRides(w, driver) && LoadOk(w.rides[ride := Taken(w, ride, driver, 0)], driver)
    {
      AcceptExactly(w, ride, driver, v);
      AnyVehicleLoads(w, ride, driver, v);
    }
  }

  /** The load does not depend on the vehicle. */
  lemma AnyVehicleLoads(w: World, ride: RideId, driver: DriverId, vehicle: VehicleId)
    requires LoadOk(w.rides, driver) && IsOpen(w, ride)
    ensures LoadOk(w.rides[ride := Taken(w, ride, driver, vehicle)], driver)
            <==> LoadOk(w.rides[ride := Taken(w, ride, driver, 0)], driver)
  {
    LoadErrorIsExact(w.rides, ride, Taken(w, ride, driver, vehicle), driver);
    LoadErrorIsExact(w.rides, ride, Taken(w, ride, driver, 0), driver);
  }

  // ----- arrive, start -----

  lemma ArriveExactly(w: World, ride: RideId, driver: DriverId)
    ensures var answer := MarkArrived(w, ride, driver);
            && (answer == Failure(NotFound) <==> ride !in w.rides)
            && (answer == Failure(Forbidden) <==> ride in w.rides && w.rides[ride].driver != Some(driver))
            && (answer == Failure(InvalidState) <==>
                  ride in w.rides && w.rides[ride].driver == Some(driver) && w.rides[ride].status != Accepted)
            && (answer.Success? <==>
                  ride in w.rides && w.rides[ride].driver == Some(driver) && w.rides[ride].status == Accepted)
            && (answer.Success? ==>
                  answer.value == w.(rides := w.rides[ride := w.rides[ride].(status := Arrived)]))
  {
  }

  lemma StartExactly(w: World, ride: RideId, driver: DriverId)
    ensures var answer := StartRide(w, ride, driver);
            && (answer == Failure(NotFound) <==> ride !in w.rides)
            && (answer == Failure(Forbidden) <==> ride in w.rides && w.rides[ride].driver != Some(driver))
            && (answer == Failure(InvalidState) <==>
                  ride in w.rides && w.rides[ride].driver == Some(driver) && w.rides[ride].status != Arrived)
            && (answer.Success? <==>
                  ride in w.rides && w.rides[ride].driver == Some(driver) && w.rides[ride].status == Arrived)
            && (answer.Success? ==>
                  var row := w.rides[ride].(status := InProgress, startedAt := Some(w.now));
                  answer.value == w.(rides := w.rides[ride := row]))
  {
  }

  // ----- complete -----

  predicate Assigned(w: World, ride: RideId, driver: DriverId) {
    ride in w.rides && w.rides[ride].driver == Some(driver)
  }

  predicate PartiesExist(w: World, ride: RideId, driver: DriverId)
    requires ride in w.rides
  {
    driver in w.books.drivers && w.rides[ride].user in w.books.riders
  }

  /** The ledger has no fare entry of the ride. */
  ghost predicate Unpaid(entries: Entries, ride: RideId) {
    forall i :: 0 <= i < |entries| && entries[i].rideId == Some(ride) ==>
      entries[i].kind == DriverFuelSupport || entries[i].kind == DriverPayout
  }

  /** The index lets the three entries in exactly when the ride has none of the kind. */
  lemma UnpaidIsWritable(entries: Entries, ride: RideId, driver: DriverId, rider: UserId, fare: int, now: int)
    ensures WriteEntries(entries, FareRows(ride, driver, rider, fare, now)).Some? <==> Unpaid(entries, ride)
  {
    var rows := FareRows(ride, driver, rider, fare, now);
    if Unpaid(entries, ride) {
      forall k | 0 <= k < |rows| ensures !Clashes(entries + rows[..k], rows[k]) {
      }
    } else {
      var i :| 0 <= i < |entries| && entries[i].rideId == Some(ride)
               && entries[i].kind != DriverFuelSupport && entries[i].kind != DriverPayout;
      var k := if entries[i].kind == RideFareDriver then 0 else if entries[i].kind == RideFarePlatform then 1 else 2;
      assert (entries + rows[..k])[i] == entries[i];
      assert Clashes(entries + rows[..k], rows[k]);
    }
  }

  /** What the first completion of a ride leaves. */
  function Settled(w: World, ride: RideId, driver: DriverId): World
    requires ride in w.rides && PartiesExist(w, ride, driver)
  {
    var row := w.rides[ride];
    var fare := row.estimatedFare;
    var d, r := w.books.drivers[driver], w.books.riders[row.user];
    w.(rides := w.rides[ride := row.(
         status := RideCompleted, finalFare := Some(fare), completedAt := Some(w.now))],
       books := Books(
         w.books.drivers[driver := d.(
           walletBalance := d.walletBalance + 95 * fare / 100, totalCompletedRides := d.totalCompletedRides + 1)],
         w.books.riders[row.user := r.(cashbackBalance := r.cashbackBalance + fare / 100)],
         w.books.entries + FareRows(ride, driver, row.user, fare, w.now)),
       activeRide := w.activeRide - {driver})
  }

  /**
   * A completion succeeds exactly for the assigned driver of a ride in progress
   * that is not paid yet, and of a completed one. The first pays the shares of
   * the quote; every other changes nothing.
   */
  lemma CompleteExactly(w: World, ride: RideId, driver: DriverId)
    ensures var answer := CompleteRide(w, ride, driver);
            && (answer.Success? <==>
                  && Assigned(w, ride, driver)
                  && (|| w.rides[ride].status == RideCompleted
                      || (&& w.rides[ride].status == InProgress && PartiesExist(w, ride, driver)
                          && Unpaid(w.books.entries, ride))))
            && (answer.Success? ==>
                  answer.value == if w.rides[ride].status == RideCompleted then w else Settled(w, ride, driver))
  {
    if ride in w.rides {
      var row := w.rides[ride];
      FareRowsAreWritten(ride, driver, row.user, row.estimatedFare, w.now);
      UnpaidIsWritable(w.books.entries, ride, driver, row.user, row.estimatedFare, w.now);
    }
  }

  lemma CompleteRefusals(w: World, ride: RideId, driver: DriverId)
    ensures var answer := CompleteRide(w, ride, driver);
            && (answer == Failure(NotFound) <==>
                  || ride !in w.rides
                  || (&& Assigned(w, ride, driver) && w.rides[ride].status == InProgress
                      && !PartiesExist(w, ride, driver)))
            && (answer == Failure(Forbidden) <==> ride in w.rides && !Assigned(w, ride, driver))
            && (answer == Failure(InvalidState) <==>
                  && Assigned(w, ride, driver)
                  && w.rides[ride].status != InProgress && w.rides[ride].status != RideCompleted)
            && (answer == Failure(DuplicatePayout) <==>
                  && Assigned(w, ride, driver) && w.rides[ride].status == InProgress
                  && PartiesExist(w, ride, driver) && !Unpaid(w.books.entries, ride))
  {
    CompleteExactly(w, ride, driver);
  }

  /** In a reachable state no ride in progress is paid, so the ledger never refuses one. */
  lemma InProgressIsUnpaid(calls: seq<Call>, ride: RideId)
    requires ride in Run(EMPTY, calls).rides && Run(EMPTY, calls).rides[ride].status == InProgress
    ensures Unpaid(Run(EMPTY, calls).books.entries, ride)
  {
    EveryRunKeepsInv(calls);
    var w := Run(EMPTY, calls);
    forall i | 0 <= i < |w.books.entries| ensures w.books.entries[i].rideId != Some(ride) {
      assert EntryOk(w.rides, w.books.entries[i]);
    }
  }

  /** A completion that succeeded can be repeated after any later calls: it succeeds, and changes nothing. */
  lemma CompletionIsRepeatable(w: World, ride: RideId, driver: DriverId, later: seq<Call>)
    requires Inv(w) && CompleteRide(w, ride, driver).Success?
    ensures var after := Run(CompleteRide(w, ride, driver).value, later);
            CompleteRide(after, ride, driver) == Success(after)
  {
    var done := CompleteRide(w, ride, driver).value;
    CompleteExactly(w, ride, driver);
    CompleteKeepsInv(w, ride, driver);
    OverIsFinal(done, later, ride);
    CompleteExactly(Run(done, later), ride, driver);
  }

  // ----- cancel -----

  /** A rider cancels their own ride until it is under way, its driver with a reason, an administrator always. */
  predicate MayCancel(row: Ride, who: Canceller) {
    match who
    case ByRider(user, _) => row.user == user && row.status != InProgress
    case ByDriver(driver, reason) => row.driver == Some(driver) && reason != ""
    case ByAdmin(_) => true
  }

  lemma CancelExactly(w: World, ride: RideId, who: Canceller)
    ensures var answer := CancelRide(w, ride, who);
            && (answer == Failure(NotFound) <==> ride !in w.rides)
            && (answer == Failure(InvalidState) <==> ride in w.rides && w.rides[ride].status == RideCompleted)
            && (answer == Failure(Forbidden) <==>
                  ride in w.rides && w.rides[ride].status != RideCompleted && !MayCancel(w.rides[ride], who))
            && (answer.Success? <==>
                  ride in w.rides && w.rides[ride].status != RideCompleted && MayCancel(w.rides[ride], who))
            && (answer.Success? ==>
                  var row := w.rides[ride];
                  var reason := if who.reason != "" then who.reason else "Cancelled by user";
                  var freed := if row.driver.Some? then {row.driver.value} else {};
                  answer.value == w.(
                    rides := w.rides[ride := row.(status := RideCancelled, cancellationReason := Some(reason))],
                    activeRide := w.activeRide - freed))
  {
  }

  // ----- driver status -----

  lemma OnlineExactly(w: World, driver: DriverId, isOnline: bool)
    ensures var answer := UpdateOnlineStatus(w, driver, isOnline);
            var drivers := w.books.drivers;
            && (answer == Failure(NotFound) <==> driver !in drivers)
            && (answer == Failure(InvalidState) <==>
                  && driver in drivers && isOnline
                  && !(drivers[driver].verification == Approved && drivers[driver].isActive))
            && (answer.Success? <==>
                  && driver in drivers
                  && (isOnline ==> drivers[driver].verification == Approved && drivers[driver].isActive))
            && (answer.Success? ==>
                  answer.value == w.(books := w.books.(
                    drivers := drivers[driver := drivers[driver].(isOnline := isOnline)])))
  {
  }

  lemma VerificationExactly(w: World, driver: DriverId, status: Verification)
    ensures var answer := UpdateVerificationStatus(w, driver, status);
            var drivers := w.books.drivers;
            && (answer == Failure(NotFound) <==> driver !in drivers)
            && (answer.Success? <==> driver in drivers)
            && (answer.Success? ==>
                  var row := drivers[driver];
                  answer.value == w.(books := w.books.(drivers := drivers[driver := row.(
                    verification := status, isOnline := row.isOnline && status == Approved)])))
  {
  }

  lemma ActiveExactly(w: World, driver: DriverId, isActive: bool)
    ensures var answer := UpdateActiveStatus(w, driver, isActive);
            var drivers := w.books.drivers;
            && (answer == Failure(NotFound) <==> driver !in drivers)
            && (answer.Success? <==> driver in drivers)
            && (answer.Success? ==>
                  var row := drivers[driver];
                  answer.value == w.(books := w.books.(drivers := drivers[driver := row.(
                    isActive := isActive, isOnline := row.isOnline && isActive)])))
  {
  }

  /** A driver who registers starts offline and active with nothing earned; a rider with no cashback. */
  lemma RegistrationExactly(w: World, driver: DriverId, approved: bool, user: UserId, isBlocked: bool)
    ensures var drivers := w.books.drivers;
            var row := Driver(if approved then Approved else PendingReview, false, true, 0, 0);
            Do(w, Register(driver, approved)) == Success(
              if driver in drivers then w else w.(books := w.books.(drivers := drivers[driver := row])))
    ensures Do(w, AddRider(user, isBlocked)) == Success(
              if user in w.books.riders then w
              else w.(books := w.books.(riders := w.books.riders[user := Rider(isBlocked, 0)])))
  {
  }
}
