/** Runs in which a wallet law fails because its side condition does. */
module WalletWitnesses {
  import opened Prelude
  import opened Money
  import opened Ledger
  import opened Books
  import opened Platform
  import opened Rides
  import opened Fleet
  import opened AcceptTwice

  const NEWCOMER := Driver(Approved, true, true, 0, 0)

  /** One driver with an empty wallet, and the default limit of 5000 naira. */
  const START := State(0, 500_000, map[], 0, Books(map[0 := NEWCOMER], map[], []), map[], map[], map[], map[], [], [])

  function Advance(amount: int, status: Status, createdAt: int): Entry {
    Entry(None, DriverFuelSupport, DriverAccount(0), amount, status, createdAt)
  }

  /** Declining an advance of 100.125 naira leaves a kobo in the wallet that no ledger entry explains. */
  lemma HalfKoboStaysBehind()
    ensures Initial(START)
    ensures var after := Run(START, [RequestFuel(0, 100.125)] + [Answer(0, Refused)]);
            && 0 in after.books.drivers && after.books.drivers[0].walletBalance == 1
            && Total(after.books.entries, WalletWeight(0)) == 0
  {
    Begin(START, RequestFuel(0, 100.125));
    Then(START, [RequestFuel(0, 100.125)], Answer(0, Refused));
    TotalOfNone([], FuelWeight(0, TodayWindow(0)));
    assert ToKobo(100.125) == 10_013 && ToKobo(-100.125) == -10_012;
    StoredIsKobo(100.125);
    var reserved := Next(START, RequestFuel(0, 100.125));
    assert reserved.books.entries == [Advance(10_013, Pending, 0)];
    var after := Next(reserved, Answer(0, Refused));
    assert after.books.entries == [Advance(10_013, Failed, 0)];
    TotalOfNone(after.books.entries, WalletWeight(0));
  }

  /** A profile update that read the wallet before an advance erases the advance when it saves. */
  lemma StaleProfileErasesMoney() returns (steps: seq<Step>)
    ensures var after := Run(START, steps);
            && 0 in after.books.drivers && after.books.drivers[0].walletBalance == 0
            && Total(after.books.entries, WalletWeight(0)) == 10_000
  {
    var s1 := [LoadProfile(1, 0)];
    Begin(START, LoadProfile(1, 0));
    var s2 := s1 + [RequestFuel(0, 100.0)];
    Then(START, s1, RequestFuel(0, 100.0));
    AdvanceAfterLoad();
    steps := s2 + [SaveCopy(1)];
    Then(START, s2, SaveCopy(1));
    SaveErases(Run(START, s2));
  }

  lemma SaveErases(s: State)
    requires s.copies == map[1 := ProfileCopy(0, 0, 0)]
    requires 0 in s.books.drivers && s.books.entries == [Advance(10_000, Pending, 0)]
    ensures var after := Next(s, SaveCopy(1));
            && 0 in after.books.drivers && after.books.drivers[0].walletBalance == 0
            && Total(after.books.entries, WalletWeight(0)) == 10_000
  {
    TotalOne(Advance(10_000, Pending, 0), WalletWeight(0));
  }

  lemma AdvanceAfterLoad()
    ensures var s := Next(Next(START, LoadProfile(1, 0)), RequestFuel(0, 100.0));
            && s.copies == map[1 := ProfileCopy(0, 0, 0)]
            && 0 in s.books.drivers
            && s.books.entries == [Advance(10_000, Pending, 0)]
  {
  }

  // ----- a rider's sign-in across a completion -----

  /** One driver and one rider with empty accounts. */
  const ROADSIDE := START.(books := Books(map[0 := NEWCOMER], map[5 := Rider(false, 0)], []))

  /** Driver 0 is taking rider 5 somewhere for 500 naira; nothing is settled yet. */
  ghost predicate Driving(s: State) {
    && 0 in s.rides && s.rides[0].driver == Some(0) && s.rides[0].user == 5
    && s.rides[0].status == InProgress && s.rides[0].estimatedFare == 50_000
    && s.books == ROADSIDE.books && s.copies == map[] && 0 !in s.locks && 4 !in s.calls && 5 !in s.calls && s.now == 0
  }

  lemma DriverArrives(s: State) returns (after: State)
    requires 0 in s.rides && s.rides[0].driver == Some(0) && s.rides[0].status == Accepted && 2 !in s.calls
    ensures CanReach(s, after)
    ensures after == s.(rides := s.rides[0 := s.rides[0].(status := Arrived)], calls := s.calls[2 := Done])
  {
    after := RowIsSaved(s, MarkArrived(2, 0, 0), 2, 0, s.rides[0].(status := Arrived));
  }

  lemma DriverStarts(s: State) returns (after: State)
    requires 0 in s.rides && s.rides[0].driver == Some(0) && s.rides[0].status == Arrived && 3 !in s.calls
    ensures CanReach(s, after)
    ensures var row := s.rides[0].(status := InProgress, startedAt := Some(s.now));
            after == s.(rides := s.rides[0 := row], calls := s.calls[3 := Done])
  {
    after := RowIsSaved(s, StartRide(3, 0, 0), 3, 0, s.rides[0].(status := InProgress, startedAt := Some(s.now)));
  }

  /** The accept of ride 0 saves its row, and deletes its lock. */
  lemma AcceptIsSaved(s: State, row: Ride) returns (after: State)
    requires s.calls == map[1 := AcceptReady(0, row)] && s.locks == map[0 := 1] && s.accepted == []
    ensures CanReach(s, after)
    ensures after == s.(rides := s.rides[0 := row], calls := map[1 := Done], locks := map[], accepted := [0])
  {
    var saved := s.(rides := s.rides[0 := row], calls := map[1 := Releasing(0)], accepted := [0]);
    RowIsAccepted(s, row);
    after := saved.(calls := map[1 := Done], locks := map[]);
    LockIsFreed(saved);
    ReachesTwo(s, AcceptSave(1), Release(1));
  }

  lemma RowIsAccepted(s: State, row: Ride)
    requires s.calls == map[1 := AcceptReady(0, row)] && s.accepted == []
    ensures Next(s, AcceptSave(1))
            == s.(rides := s.rides[0 := row], calls := map[1 := Releasing(0)], accepted := [0])
  {
    assert s.accepted + [0] == [0] && s.calls[1 := Releasing(0)] == map[1 := Releasing(0)];
  }

  lemma LockIsFreed(s: State)
    requires s.calls == map[1 := Releasing(0)] && s.locks == map[0 := 1]
    ensures Next(s, Release(1)) == s.(calls := map[1 := Done], locks := map[])
  {
  }

  lemma AcceptIsReady(s: State, quote: Ride) returns (after: State)
    requires s.rides == map[0 := quote] && quote.status == Requested && quote.driver == None
    requires s.calls == map[] && s.locks == map[]
    ensures CanReach(s, after)
    ensures after == s.(locks := map[0 := 1], calls := map[1 := AcceptReady(0, AcceptedBy(quote, 0, 20, s.now))])
  {
    assert ActiveRides(s.rides, 0) == {};
    after := FreshAccept(s, 0, 1, 0, 20);
  }

  lemma RequestIsAccepted(s: State, quote: Ride) returns (after: State)
    requires s.rides == map[0 := quote] && quote.status == Requested && quote.driver == None
    requires s.calls == map[] && s.locks == map[] && s.accepted == []
    ensures CanReach(s, after)
    ensures after
            == s.(rides := map[0 := AcceptedBy(quote, 0, 20, s.now)], calls := map[1 := Done], accepted := [0])
  {
    var ready := AcceptIsReady(s, quote);
    after := AcceptIsSaved(ready, AcceptedBy(quote, 0, 20, s.now));
    ReachesOn(s, ready, after);
  }

  lemma AcceptedGetsUnderWay(s: State) returns (after: State)
    requires 0 in s.rides && s.rides[0].driver == Some(0) && s.rides[0].user == 5
    requires s.rides[0].status == Accepted && s.rides[0].estimatedFare == 50_000 && s.now == 0
    requires s.calls == map[1 := Done] && s.locks == map[] && s.copies == map[] && s.books == ROADSIDE.books
    ensures CanReach(s, after) && Driving(after)
  {
    var arrived := DriverArrives(s);
    after := DriverStarts(arrived);
    assert after.calls == map[1 := Done, 2 := Done, 3 := Done];
    assert after.rides[0] == s.rides[0].(status := InProgress, startedAt := Some(s.now));
    ReachesOn(s, arrived, after);
  }

  const REQUESTED := ROADSIDE.(rides := map[0 := NewRide(5, 0, Private, 0)], nextRide := 1)

  lemma RideIsRequested()
    ensures CanReach(ROADSIDE, REQUESTED) && REQUESTED.rides[0].estimatedFare == 50_000
  {
    FareIsWholeKobo(0, Private);
    ReachesOne(ROADSIDE, CreateRide(5, 0, Private));
  }

  lemma RideIsUnderWay() returns (after: State)
    ensures CanReach(ROADSIDE, after) && Driving(after)
  {
    RideIsRequested();
    var accepted := RequestIsAccepted(REQUESTED, REQUESTED.rides[0]);
    after := AcceptedGetsUnderWay(accepted);
    ReachesOn(REQUESTED, accepted, after);
    ReachesOn(ROADSIDE, REQUESTED, after);
  }

  lemma FareIsWritten()
    ensures var split := FareSplit(50_000, 47_500, 2_000, 500);
            && SplitFareKobo(ToNaira(50_000)) == split
            && WriteEntries([], FareEntries(0, 0, 5, split, 0)) == Some(FareEntries(0, 0, 5, split, 0))
            && Total(FareEntries(0, 0, 5, split, 0), CashbackWeight(5)) == 500
  {
    var rows := FareEntries(0, 0, 5, FareSplit(50_000, 47_500, 2_000, 500), 0);
    KoboRoundTrip(50_000);
    FloorOfFraction(50_000, 95);
    FloorOfFraction(50_000, 1);
    forall k | 0 <= k < |rows| ensures !Clashes([] + rows[..k], rows[k]) {
    }
    TotalThree([], rows[0], rows[1], rows[2], CashbackWeight(5));
    assert [] + rows == rows && [] + [rows[0], rows[1], rows[2]] == rows;
    TotalOfNone([], CashbackWeight(5));
  }

  /** The cashback is paid, and a sign-in is about to write back what it read before. */
  ghost predicate Paid(s: State) {
    && s.copies == map[4 := RiderCopy(5, 0)] && 5 in s.books.riders && s.books.riders[5].cashbackBalance == 500
    && Total(s.books.entries, CashbackWeight(5)) == 500
  }

  /** The ledger rows of the 500 naira fare are written, and the rider's cashback with them. */
  lemma SettlementPays()
    ensures var settled := SettleFare(ROADSIDE.books, 0, 0, 5, 50_000, 0);
            && settled.Some? && 5 in settled.value.riders && settled.value.riders[5].cashbackBalance == 500
            && Total(settled.value.entries, CashbackWeight(5)) == 500
  {
    FareIsWritten();
  }

  lemma CompletionPays(s: State)
    requires 0 in s.rides && s.rides[0].driver == Some(0) && s.rides[0].user == 5 && s.rides[0].status == InProgress
    requires s.rides[0].estimatedFare == 50_000 && s.books == ROADSIDE.books && s.now == 0
    requires s.copies == map[4 := RiderCopy(5, 0)]
    ensures Paid(Complete(s, 0, 0))
  {
    SettlementPays();
    var settled := SettleFare(ROADSIDE.books, 0, 0, 5, 50_000, 0);
    assert Complete(s, 0, 0).books == settled.value && Complete(s, 0, 0).copies == s.copies;
  }

  lemma SignInLoads(s: State) returns (after: State)
    requires Driving(s)
    ensures CanReach(s, after) && after == s.(copies := map[4 := RiderCopy(5, 0)])
  {
    after := Next(s, LoadRider(4, 5));
    ReachesOne(s, LoadRider(4, 5));
  }

  lemma LockIsTaken(s: State) returns (after: State)
    requires 0 !in s.locks && 4 !in s.calls
    ensures CanReach(s, after)
    ensures after == s.(calls := s.calls[4 := CompleteLocked(0, 0)], locks := s.locks[0 := 4])
  {
    after := Next(s, CompleteLock(4, 0, 0));
    ReachesOne(s, CompleteLock(4, 0, 0));
  }

  lemma CompletionRuns(s: State) returns (after: State)
    requires 4 in s.calls && s.calls[4] == CompleteLocked(0, 0)
    requires Paid(Complete(s, 0, 0))
    ensures CanReach(s, after) && Paid(after)
  {
    after := Next(s, CompleteRun(4));
    assert after == Goto(Complete(s, 0, 0), 4, Releasing(0));
    ReachesOne(s, CompleteRun(4));
  }

  lemma DriverCompletes(s: State) returns (after: State)
    requires Driving(s.(copies := map[])) && s.copies == map[4 := RiderCopy(5, 0)]
    ensures CanReach(s, after) && Paid(after)
  {
    var locked := LockIsTaken(s);
    CompletionPays(locked);
    after := CompletionRuns(locked);
    ReachesOn(s, locked, after);
  }

  /** The rider's cashback is gone from the balance, and not from the ledger. */
  ghost predicate Erased(s: State) {
    && 5 in s.books.riders && s.books.riders[5].cashbackBalance == 0
    && Total(s.books.entries, CashbackWeight(5)) == 500
  }

  lemma SignInSaves(s: State) returns (after: State)
    requires Paid(s)
    ensures CanReach(s, after) && Erased(after)
  {
    after := Next(s, SaveCopy(4));
    assert after.books.entries == s.books.entries;
    ReachesOne(s, SaveCopy(4));
  }

  lemma SignInSpansACompletion(s: State) returns (after: State)
    requires Driving(s)
    ensures CanReach(s, after) && Erased(after)
  {
    var loaded := SignInLoads(s);
    var paid := DriverCompletes(loaded);
    ReachesOn(s, loaded, paid);
    after := SignInSaves(paid);
    ReachesOn(s, paid, after);
  }

  lemma ErasureIsReached(s: State, between: State) returns (steps: seq<Step>)
    requires CanReach(s, between) && Driving(between)
    ensures Erased(Run(s, steps))
  {
    var after := SignInSpansACompletion(between);
    ReachesOn(s, between, after);
    steps :| NoExpiry(steps) && Run(s, steps) == after;
  }

  /**
   * A rider's sign-in that read their row before a completion, and saves it
   * after, erases the cashback the completion paid.
   */
  lemma StaleSignInErasesCashback() returns (steps: seq<Step>)
    ensures Initial(ROADSIDE) && Erased(Run(ROADSIDE, steps))
  {
    var driving := RideIsUnderWay();
    steps := ErasureIsReached(ROADSIDE, driving);
  }

  /** Two days' advances in flight together, paid out, then declined: the wallet sinks to twice the limit. */
  lemma FloorNeedsOneDay() returns (steps: seq<Step>)
    ensures var after := Run(START, steps);
            0 in after.books.drivers && after.books.drivers[0].walletBalance == -1_000_000
  {
    var s1 := [RequestFuel(0, 5000.0)];
    Begin(START, RequestFuel(0, 5000.0));
    var s2 := s1 + [Tick(DAY)];
    Then(START, s1, Tick(DAY));
    FirstAdvance();
    var s3 := s2 + [RequestFuel(0, 5000.0)];
    Then(START, s2, RequestFuel(0, 5000.0));
    var s4 := s3 + [RequestPayout(0, 10_000.0)];
    Then(START, s3, RequestPayout(0, 10_000.0));
    SecondAdvancePaidOut();
    var s5 := s4 + [Answer(0, Refused)];
    Then(START, s4, Answer(0, Refused));
    steps := s5 + [Answer(1, Refused)];
    Then(START, s5, Answer(1, Refused));
    BothRefused(Run(START, s4));
  }

  const ADVANCED := START.(
    now := DAY,
    books := Books(map[0 := NEWCOMER.(walletBalance := 500_000)], map[], [Advance(500_000, Pending, 0)]),
    pending := map[0 := Fuel(0, 5000.0)])

  lemma FirstAdvance()
    ensures Next(Next(START, RequestFuel(0, 5000.0)), Tick(DAY)) == ADVANCED
  {
  }

  /** The wallet is empty and both advances still wait for the bank. */
  ghost predicate PaidOut(s: State) {
    && 0 in s.books.drivers && s.books.drivers[0].walletBalance == 0 && |s.books.entries| == 3
    && 0 in s.pending && s.pending[0] == Fuel(0, 5000.0) && 1 in s.pending && s.pending[1] == Fuel(0, 5000.0)
  }

  lemma SecondAdvancePaidOut()
    ensures PaidOut(Next(Next(ADVANCED, RequestFuel(0, 5000.0)), RequestPayout(0, 10_000.0)))
  {
  }

  lemma BothRefused(s: State)
    requires PaidOut(s)
    ensures var after := Next(Next(s, Answer(0, Refused)), Answer(1, Refused));
            0 in after.books.drivers && after.books.drivers[0].walletBalance == -1_000_000
  {
  }
}
