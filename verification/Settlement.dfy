/** A fare is settled at most once, whatever the locks and the stale saves do. */
module Settlement {
  import opened Prelude
  import opened Money
  import opened Ledger
  import opened Books
  import opened Rides
  import opened Platform
  import opened PlatformBase

  function FareOf(rides: map<RideId, Ride>, ride: RideId): int {
    if ride in rides then rides[ride].estimatedFare else 0
  }

  function Fares(rides: map<RideId, Ride>, settled: seq<RideId>): seq<int> {
    seq(|settled|, i requires 0 <= i < |settled| => FareOf(rides, settled[i]))
  }

  ghost predicate NoDuplicates(xs: seq<RideId>) {
    forall i, j :: 0 <= i < j < |xs| ==> xs[i] != xs[j]
  }

  ghost predicate HasDriverFare(entries: Entries, ride: RideId) {
    exists i :: 0 <= i < |entries| && entries[i].rideId == Some(ride) && entries[i].kind == RideFareDriver
  }

  /** Every fare entry belongs to a settled ride, and every settled ride has a driver's entry. */
  ghost predicate Booked(entries: Entries, settled: seq<RideId>) {
    && (forall i :: 0 <= i < |entries| && entries[i].rideId.Some? ==> entries[i].rideId.value in settled)
    && (forall r :: r in settled ==> HasDriverFare(entries, r))
  }

  /** No entry, or exactly three that sum to the fare. */
  ghost predicate PaidOnce(s: State, ride: RideId) {
    && Total(s.books.entries, RideCountWeight(ride)) == (if ride in s.settled then 3 else 0)
    && Total(s.books.entries, RideAmountWeight(ride)) == (if ride in s.settled then FareOf(s.rides, ride) else 0)
  }

  ghost predicate Reconciles(s: State) {
    && GrossSettledFare(s.books.entries) == Sum(Fares(s.rides, s.settled))
    && Total(s.books.entries, PlatformWeight()) == Sum(PlatformShares(Fares(s.rides, s.settled)))
  }

  ghost predicate SettledOnce(s: State) {
    && NoDuplicates(s.settled)
    && (forall r :: r in s.settled ==> r in s.rides)
    && Booked(s.books.entries, s.settled)
    && (forall r :: PaidOnce(s, r))
    && Reconciles(s)
  }

  // ----- wallet steps do not touch it -----

  ghost predicate IgnoresWallet(weight: Weight) {
    forall e :: IsWalletEntry(e) ==> weight(e) == 0
  }

  lemma WalletStepKeepsTotal(entries: Entries, after: Entries, weight: Weight)
    requires WalletStep(entries, after) && IgnoresWallet(weight)
    ensures Total(after, weight) == Total(entries, weight)
  {
    if |after| == |entries| + 1 {
      TotalAppend(entries, after[|entries|], weight);
    } else if after != entries {
      var id: nat, status :| id < |entries| && IsWalletEntry(entries[id]) && after == SettleEntry(entries, id, status);
      assert IsWalletEntry(entries[id].(status := status));
      TotalSettle(entries, id, status, weight);
    }
  }

  lemma WalletStepKeepsBooked(entries: Entries, after: Entries, settled: seq<RideId>)
    requires WalletStep(entries, after) && Booked(entries, settled)
    ensures Booked(after, settled)
  {
    forall r | r in settled ensures HasDriverFare(after, r) {
      assert HasDriverFare(entries, r);
      var i :| 0 <= i < |entries| && entries[i].rideId == Some(r) && entries[i].kind == RideFareDriver;
      assert after[i].rideId == Some(r) && after[i].kind == RideFareDriver;
    }
  }

  /** Quotes never change, so neither do the fares of settled rides. */
  lemma ForwardKeepsFares(rides: map<RideId, Ride>, after: map<RideId, Ride>, settled: seq<RideId>)
    requires Forward(rides, after) && forall r :: r in settled ==> r in rides
    ensures Fares(after, settled) == Fares(rides, settled)
  {
  }

  lemma QuietStepKeepsSettled(s: State, after: State)
    requires SettledOnce(s) && after.settled == s.settled
    requires Forward(s.rides, after.rides) && WalletStep(s.books.entries, after.books.entries)
    ensures SettledOnce(after)
  {
    var before, now := s.books.entries, after.books.entries;
    ForwardKeepsFares(s.rides, after.rides, s.settled);
    WalletStepKeepsBooked(before, now, s.settled);
    forall r ensures PaidOnce(after, r) {
      assert PaidOnce(s, r);
      WalletStepKeepsTotal(before, now, RideCountWeight(r));
      WalletStepKeepsTotal(before, now, RideAmountWeight(r));
    }
    WalletStepKeepsTotal(before, now, PlatformWeight());
    WalletStepKeepsTotal(before, now, KindWeight(RideFareDriver));
    WalletStepKeepsTotal(before, now, KindWeight(RideFareRiderCashback));
  }

  // ----- the unique index stops a second settlement -----

  lemma SettledRideCannotSettle(entries: Entries, settled: seq<RideId>, ride: RideId, driver: DriverId,
        rider: UserId, split: FareSplit, now: int)
    requires Booked(entries, settled) && ride in settled
    ensures WriteEntries(entries, FareEntries(ride, driver, rider, split, now)).None?
  {
    var rows := FareEntries(ride, driver, rider, split, now);
    assert HasDriverFare(entries, ride);
    assert entries + rows[..0] == entries;
    assert Clashes(entries + rows[..0], rows[0]);
  }

  lemma FareTotals(entries: Entries, rows: Entries, ride: RideId, driver: DriverId, rider: UserId,
        fareKobo: int, now: int)
    requires rows == FareEntries(ride, driver, rider, SplitFareKobo(ToNaira(fareKobo)), now)
    ensures GrossSettledFare(entries + rows) == GrossSettledFare(entries) + fareKobo
    ensures Total(entries + rows, PlatformWeight())
            == Total(entries, PlatformWeight()) + SplitFareKobo(ToNaira(fareKobo)).platformKobo
  {
    TotalThree(entries, rows[0], rows[1], rows[2], PlatformWeight());
    TotalThree(entries, rows[0], rows[1], rows[2], KindWeight(RideFareDriver));
    TotalThree(entries, rows[0], rows[1], rows[2], KindWeight(RideFareRiderCashback));
    SplitConserves(ToNaira(fareKobo));
    KoboRoundTrip(fareKobo);
  }

  lemma FareTotalsOfRide(entries: Entries, rows: Entries, ride: RideId, driver: DriverId, rider: UserId,
        fareKobo: int, now: int, r: RideId)
    requires rows == FareEntries(ride, driver, rider, SplitFareKobo(ToNaira(fareKobo)), now)
    ensures Total(entries + rows, RideCountWeight(r)) == Total(entries, RideCountWeight(r)) + if r == ride then 3 else 0
    ensures Total(entries + rows, RideAmountWeight(r))
            == Total(entries, RideAmountWeight(r)) + if r == ride then fareKobo else 0
  {
    TotalThree(entries, rows[0], rows[1], rows[2], RideCountWeight(r));
    TotalThree(entries, rows[0], rows[1], rows[2], RideAmountWeight(r));
    SplitConserves(ToNaira(fareKobo));
    KoboRoundTrip(fareKobo);
  }

  /** Completing appends the three entries of a ride that had none. */
  lemma SettlingExtends(s: State, ride: RideId, driver: DriverId)
    requires SettledOnce(s) && Complete(s, ride, driver).settled != s.settled
    ensures ride in s.rides && ride !in s.settled
    ensures var after := Complete(s, ride, driver);
            var row := s.rides[ride];
            && after.settled == s.settled + [ride]
            && after.books.entries == s.books.entries +
                 FareEntries(ride, driver, row.user, SplitFareKobo(ToNaira(row.estimatedFare)), s.now)
  {
    var row := s.rides[ride];
    var split := SplitFareKobo(ToNaira(row.estimatedFare));
    if ride in s.settled {
      SettledRideCannotSettle(s.books.entries, s.settled, ride, driver, row.user, split, s.now);
    }
  }

  lemma FaresOfOneMore(rides: map<RideId, Ride>, settled: seq<RideId>, ride: RideId)
    ensures Sum(Fares(rides, settled + [ride])) == Sum(Fares(rides, settled)) + FareOf(rides, ride)
    ensures Sum(PlatformShares(Fares(rides, settled + [ride])))
            == Sum(PlatformShares(Fares(rides, settled))) + SplitFareKobo(ToNaira(FareOf(rides, ride))).platformKobo
  {
    var before, fare := Fares(rides, settled), FareOf(rides, ride);
    assert Fares(rides, settled + [ride]) == before + [fare];
    SumConcat(before, [fare]);
    SumOne(fare);
    var share := SplitFareKobo(ToNaira(fare)).platformKobo;
    assert PlatformShares(before + [fare]) == PlatformShares(before) + [share];
    SumConcat(PlatformShares(before), [share]);
    SumOne(share);
  }

  lemma CompletionReconciles(s: State, ride: RideId, driver: DriverId)
    requires RidesOk(s) && SettledOnce(s) && Complete(s, ride, driver).settled != s.settled
    ensures Reconciles(Complete(s, ride, driver))
  {
    var after := Complete(s, ride, driver);
    SettlingExtends(s, ride, driver);
    CompleteKeepsRides(s, ride, driver);
    var row := s.rides[ride];
    var rows := FareEntries(ride, driver, row.user, SplitFareKobo(ToNaira(row.estimatedFare)), s.now);
    ForwardKeepsFares(s.rides, after.rides, s.settled);
    FaresOfOneMore(after.rides, s.settled, ride);
    FareTotals(s.books.entries, rows, ride, driver, row.user, row.estimatedFare, s.now);
  }

  lemma CompletionPaysOnce(s: State, ride: RideId, driver: DriverId, r: RideId)
    requires RidesOk(s) && SettledOnce(s) && Complete(s, ride, driver).settled != s.settled
    ensures PaidOnce(Complete(s, ride, driver), r)
  {
    SettlingExtends(s, ride, driver);
    CompleteKeepsRides(s, ride, driver);
    var row := s.rides[ride];
    var rows := FareEntries(ride, driver, row.user, SplitFareKobo(ToNaira(row.estimatedFare)), s.now);
    assert PaidOnce(s, r);
    FareTotalsOfRide(s.books.entries, rows, ride, driver, row.user, row.estimatedFare, s.now, r);
    assert r in s.settled + [ride] <==> r in s.settled || r == ride;
  }

  lemma CompletionKeepsBooked(s: State, ride: RideId, driver: DriverId)
    requires SettledOnce(s) && Complete(s, ride, driver).settled != s.settled
    ensures Booked(Complete(s, ride, driver).books.entries, Complete(s, ride, driver).settled)
  {
    SettlingExtends(s, ride, driver);
    var before, after := s.books.entries, Complete(s, ride, driver).books.entries;
    forall r | r in s.settled + [ride] ensures HasDriverFare(after, r) {
      if r in s.settled {
        assert HasDriverFare(before, r);
        var i :| 0 <= i < |before| && before[i].rideId == Some(r) && before[i].kind == RideFareDriver;
        assert after[i] == before[i];
      } else {
        assert after[|before|].rideId == Some(r) && after[|before|].kind == RideFareDriver;
      }
    }
  }

  lemma CompletionSettlesOnce(s: State, ride: RideId, driver: DriverId)
    requires Base(s) && SettledOnce(s)
    ensures SettledOnce(Complete(s, ride, driver))
  {
    var after := Complete(s, ride, driver);
    if after.settled == s.settled {
      assert after == s;
    } else {
      SettlingExtends(s, ride, driver);
      CompletionReconciles(s, ride, driver);
      forall r ensures PaidOnce(after, r) {
        CompletionPaysOnce(s, ride, driver, r);
      }
      CompletionKeepsBooked(s, ride, driver);
    }
  }

  lemma StepSettlesOnce(s: State, step: Step)
    requires Base(s) && SettledOnce(s)
    ensures SettledOnce(Next(s, step))
  {
    StepKeepsRides(s, step);
    StepKeepsRequests(s, step);
    if step.CompleteRun? {
      if step.c in s.calls && s.calls[step.c].CompleteLocked? {
        var call := s.calls[step.c];
        CompletionSettlesOnce(s, call.ride, call.driver);
        var completed := Complete(s, call.ride, call.driver);
        forall r ensures PaidOnce(Next(s, step), r) {
          assert PaidOnce(completed, r);
        }
      }
    } else {
      OnlyCompletionSettles(s, step);
      QuietStepKeepsSettled(s, Next(s, step));
    }
  }

  lemma OnlyCompletionSettles(s: State, step: Step)
    requires !step.CompleteRun?
    ensures Next(s, step).settled == s.settled
  {
  }

  /**
   * In every interleaving, with locks expiring at any step, rows saved stale
   * and calls stopping anywhere: no ride settles twice, each has no ledger
   * entry or exactly three that sum to its fare, the report's gross is the sum
   * of the settled fares, and the platform's own total is within 1.76 kobo a
   * ride of 4% of it.
   */
  lemma EveryFareSettlesOnce(s: State, steps: seq<Step>)
    requires Initial(s)
    ensures var after := Run(s, steps);
            && SettledOnce(after)
            && (var gross := GrossSettledFare(after.books.entries);
                var platform := Total(after.books.entries, PlatformWeight());
                0 <= 100 * platform - 4 * gross <= 176 * |after.settled|)
  {
    RunSettlesOnce(s, steps);
    var after := Run(s, steps);
    PlatformNeverDrifts(Fares(after.rides, after.settled));
  }

  lemma {:induction false} RunSettlesOnce(s: State, steps: seq<Step>)
    requires Initial(s)
    ensures Base(Run(s, steps)) && SettledOnce(Run(s, steps))
  {
    if steps == [] {
      forall weight: Weight ensures Total(s.books.entries, weight) == 0 {
        TotalOfNone(s.books.entries, weight);
      }
      assert Fares(s.rides, s.settled) == [] && PlatformShares([]) == [];
    } else {
      RunSettlesOnce(s, steps[..|steps| - 1]);
      RunKeepsBase(s, steps);
      StepSettlesOnce(Run(s, steps[..|steps| - 1]), steps[|steps| - 1]);
    }
  }
}
