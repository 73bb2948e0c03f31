/** What each settled ride was paid, while ride and wallet calls run at the same time. */
module PlatformFares {
  import opened Money
  import opened Ledger
  import opened Books
  import opened Rides
  import opened Platform
  import opened PlatformBase
  import opened AcceptOnce
  import opened Settlement

  // ----- the quote -----

  predicate AsOrdered(row: Ride, order: Step)
    requires order.CreateRide?
  {
    && row.user == order.user && row.category == order.category
    && row.estimatedFare == PriceInKobo(order.hundredthsKm, order.category)
  }

  /** The i-th step of the run created the ride, out of nothing. */
  ghost predicate CreatedBy(s: State, steps: seq<Step>, ride: RideId, i: nat) {
    && i < |steps| && steps[i].CreateRide?
    && ride !in Run(s, steps[..i]).rides && ride in Run(s, steps[..i + 1]).rides
  }

  lemma CreationIsHistory(s: State, steps: seq<Step>, more: Step, ride: RideId, i: nat)
    requires CreatedBy(s, steps, ride, i)
    ensures CreatedBy(s, steps + [more], ride, i)
  {
    assert (steps + [more])[..i] == steps[..i] && (steps + [more])[..i + 1] == steps[..i + 1];
  }

  lemma CreatedAsOrdered(s: State, step: Step, ride: RideId)
    requires RidesOk(s) && ride !in s.rides && ride in Next(s, step).rides
    ensures step.CreateRide? && AsOrdered(Next(s, step).rides[ride], step)
  {
    if !step.CreateRide? { OnlyRequestsAreNew(s, step, ride); }
    FareIsWholeKobo(step.hundredthsKm, step.category);
  }

  lemma CreatedLast(s: State, front: seq<Step>, last: Step, ride: RideId)
    requires RidesOk(Run(s, front)) && ride !in Run(s, front).rides && ride in Next(Run(s, front), last).rides
    ensures CreatedBy(s, front + [last], ride, |front|)
    ensures last.CreateRide? && AsOrdered(Next(Run(s, front), last).rides[ride], last)
  {
    CreatedAsOrdered(Run(s, front), last, ride);
    assert (front + [last])[..|front|] == front && (front + [last])[..|front| + 1] == front + [last];
    Then(s, front, last);
  }

  lemma OrderIsKept(s: State, front: seq<Step>, last: Step, ride: RideId, i: nat)
    requires RidesOk(Run(s, front)) && ride in Run(s, front).rides
    requires CreatedBy(s, front, ride, i) && AsOrdered(Run(s, front).rides[ride], front[i])
    ensures CreatedBy(s, front + [last], ride, i)
    ensures ride in Run(s, front + [last]).rides && AsOrdered(Run(s, front + [last]).rides[ride], front[i])
  {
    CreationIsHistory(s, front, last, ride, i);
    StepKeepsRides(Run(s, front), last);
    Then(s, front, last);
  }

  lemma {:induction false} QuotesAreKept(s: State, steps: seq<Step>, ride: RideId) returns (i: nat)
    requires Base(s) && s.rides == map[] && ride in Run(s, steps).rides
    ensures CreatedBy(s, steps, ride, i) && AsOrdered(Run(s, steps).rides[ride], steps[i])
  {
    assert steps != [];
    var front, last := steps[..|steps| - 1], steps[|steps| - 1];
    assert steps == front + [last];
    RunKeepsBase(s, front);
    if ride in Run(s, front).rides {
      i := QuotesAreKept(s, front, ride);
      OrderIsKept(s, front, last, ride, i);
    } else {
      i := |front|;
      CreatedLast(s, front, last, ride);
    }
  }

  /** Stale saves or not, a ride keeps the rider, category and price of the request that created it. */
  lemma EveryRideKeepsItsQuote(s: State, steps: seq<Step>, ride: RideId) returns (i: nat)
    requires Initial(s) && ride in Run(s, steps).rides
    ensures CreatedBy(s, steps, ride, i) && AsOrdered(Run(s, steps).rides[ride], steps[i])
  {
    i := QuotesAreKept(s, steps, ride);
  }

  // ----- the payment -----

  predicate StandAt(entries: Entries, rows: Entries, k: nat) {
    k + |rows| <= |entries| && entries[k..k + |rows|] == rows
  }

  /** Some driver, the platform and this rider got the shares of the fare. */
  ghost predicate Paid(entries: Entries, ride: RideId, rider: UserId, fare: int) {
    exists driver, at, k: nat :: StandAt(entries, FareRows(ride, driver, rider, fare, at), k)
  }

  ghost predicate SettledArePaid(s: State) {
    forall r :: r in s.settled ==> r in s.rides && Paid(s.books.entries, r, s.rides[r].user, s.rides[r].estimatedFare)
  }

  lemma PrefixKeepsPaid(entries: Entries, after: Entries, ride: RideId, rider: UserId, fare: int)
    requires entries <= after && Paid(entries, ride, rider, fare)
    ensures Paid(after, ride, rider, fare)
  {
    var driver, at, k: nat :| StandAt(entries, FareRows(ride, driver, rider, fare, at), k);
    var rows := FareRows(ride, driver, rider, fare, at);
    assert after[k..k + |rows|] == entries[k..k + |rows|];
    assert StandAt(after, rows, k);
  }

  lemma WalletKeepsPaid(entries: Entries, after: Entries, ride: RideId, rider: UserId, fare: int)
    requires WalletStep(entries, after) && Paid(entries, ride, rider, fare)
    ensures Paid(after, ride, rider, fare)
  {
    if entries <= after {
      PrefixKeepsPaid(entries, after, ride, rider, fare);
    } else {
      var id: nat, status :| id < |entries| && IsWalletEntry(entries[id]) && after == SettleEntry(entries, id, status);
      var driver, at, k: nat :| StandAt(entries, FareRows(ride, driver, rider, fare, at), k);
      var rows := FareRows(ride, driver, rider, fare, at);
      assert forall j :: k <= j < k + |rows| ==> entries[j] == rows[j - k];
      assert id < k || id >= k + |rows|;
      assert after[k..k + |rows|] == entries[k..k + |rows|];
      assert StandAt(after, rows, k);
    }
  }

  lemma CompletionPays(s: State, ride: RideId, driver: DriverId)
    requires RidesOk(s) && SettledArePaid(s)
    ensures SettledArePaid(Complete(s, ride, driver))
  {
    var after := Complete(s, ride, driver);
    if after.settled != s.settled {
      var row := s.rides[ride];
      var rows := FareRows(ride, driver, row.user, row.estimatedFare, s.now);
      FareRowsAreWritten(ride, driver, row.user, row.estimatedFare, s.now);
      assert after.books.entries == s.books.entries + rows;
      assert StandAt(after.books.entries, rows, |s.books.entries|);
      forall r | r in s.settled
        ensures Paid(after.books.entries, r, s.rides[r].user, s.rides[r].estimatedFare)
      {
        PrefixKeepsPaid(s.books.entries, after.books.entries, r, s.rides[r].user, s.rides[r].estimatedFare);
      }
    }
  }

  lemma StepKeepsPaid(s: State, step: Step)
    requires Base(s) && SettledArePaid(s)
    ensures SettledArePaid(Next(s, step))
  {
    StepKeepsRides(s, step);
    StepKeepsRequests(s, step);
    if step.CompleteRun? {
      if step.c in s.calls && s.calls[step.c].CompleteLocked? {
        CompletionPays(s, s.calls[step.c].ride, s.calls[step.c].driver);
      }
    } else {
      OnlyCompletionSettles(s, step);
      forall r | r in s.settled
        ensures Paid(Next(s, step).books.entries, r, s.rides[r].user, s.rides[r].estimatedFare)
      {
        WalletKeepsPaid(s.books.entries, Next(s, step).books.entries, r, s.rides[r].user, s.rides[r].estimatedFare);
      }
    }
  }

  lemma {:induction false} RunKeepsPaid(s: State, steps: seq<Step>)
    requires Initial(s)
    ensures SettledArePaid(Run(s, steps))
  {
    if steps != [] {
      RunKeepsPaid(s, steps[..|steps| - 1]);
      RunKeepsBase(s, steps[..|steps| - 1]);
      StepKeepsPaid(Run(s, steps[..|steps| - 1]), steps[|steps| - 1]);
    }
  }

  /**
   * In every interleaving, whatever expires, stops or saves late: a settled
   * ride has paid 95%, the rest and 1% of the price list's fare for the
   * distance and category it was requested with, the 1% to the rider who
   * requested it.
   */
  lemma EverySettledRideIsPaidItsPrice(s: State, steps: seq<Step>, ride: RideId) returns (i: nat)
    requires Initial(s) && ride in Run(s, steps).settled
    ensures CreatedBy(s, steps, ride, i)
    ensures Paid(Run(s, steps).books.entries, ride, steps[i].user,
                 PriceInKobo(steps[i].hundredthsKm, steps[i].category))
  {
    RunKeepsPaid(s, steps);
    i := EveryRideKeepsItsQuote(s, steps, ride);
  }
}
