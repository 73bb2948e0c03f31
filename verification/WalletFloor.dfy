/** How deep a wallet can sink. */
module WalletFloor {
  import opened Prelude
  import opened Money
  import opened Ledger
  import opened Books
  import opened Platform
  import opened PlatformBase
  import opened WalletLaws
  import opened FuelCap

  /** What the refusal of an advance takes out of the wallet, in kobo: all of it, but for half a kobo rounded. */
  function TakenBack(amount: real): int {
    -ToKobo(-amount)
  }

  predicate IsAdvanceOf(pending: map<nat, Request>, driver: DriverId, id: nat) {
    id in pending && pending[id].Fuel? && pending[id].driver == driver
  }

  function TakenBackAt(pending: map<nat, Request>, driver: DriverId, id: nat): int {
    if IsAdvanceOf(pending, driver, id) then TakenBack(pending[id].amount) else 0
  }

  /** What refusing the driver's advances in flight would take, entry by entry. */
  function Advances(count: nat, pending: map<nat, Request>, driver: DriverId): seq<int> {
    seq(count, i requires 0 <= i < count => TakenBackAt(pending, driver, i))
  }

  ghost function InFlight(s: State, driver: DriverId): int {
    Sum(Advances(|s.books.entries|, s.pending, driver))
  }

  lemma TakenBackIsWithin(amount: real)
    requires amount >= MIN_FUEL
    ensures 0 <= TakenBack(amount) <= ToKobo(amount)
  {
    NegationRounds(amount);
  }

  /** Even if every advance in flight is declined, the balance stays above minus the limit. */
  ghost predicate AboveFloor(s: State, driver: DriverId) {
    driver in s.books.drivers ==> s.books.drivers[driver].walletBalance + s.dailyLimit >= InFlight(s, driver)
  }

  ghost predicate AllOfDay(s: State, driver: DriverId, k: int) {
    forall i :: 0 <= i < |s.books.entries| && IsAdvanceOf(s.pending, driver, i) ==>
      DayWindow(k).Holds(s.books.entries[i].createdAt)
  }

  /** The driver's advances in flight are all of one day. */
  ghost predicate OneDay(s: State, driver: DriverId) {
    exists k :: AllOfDay(s, driver, k)
  }

  /** So they are while the fuel lock lets in one call at a time. */
  lemma OneCallIsOneDay(s: State, driver: DriverId)
    requires forall i: nat, j: nat :: IsAdvanceOf(s.pending, driver, i) && IsAdvanceOf(s.pending, driver, j) ==> i == j
    ensures OneDay(s, driver)
  {
    if i: nat :| i < |s.books.entries| && IsAdvanceOf(s.pending, driver, i) {
      var at := s.books.entries[i].createdAt;
      InItsDay(at);
      assert AllOfDay(s, driver, at / 86_400_000);
    } else {
      assert AllOfDay(s, driver, 0);
    }
  }

  lemma InFlightIsCapped(s: State, driver: DriverId)
    requires Base(s) && Capped(s) && OneDay(s, driver)
    ensures InFlight(s, driver) <= s.dailyLimit
  {
    var k :| AllOfDay(s, driver, k);
    var advances := Advances(|s.books.entries|, s.pending, driver);
    var fuel := Weights(s.books.entries, FuelWeight(driver, DayWindow(k)));
    forall i | 0 <= i < |advances| ensures advances[i] <= fuel[i] {
      assert i in s.pending ==> RequestOk(s.books.entries, i, s.pending[i]);
      if IsAdvanceOf(s.pending, driver, i) { TakenBackIsWithin(s.pending[i].amount); }
    }
    SumMonotone(advances, fuel);
  }

  lemma InFlightIsPositive(s: State, driver: DriverId)
    requires Base(s)
    ensures InFlight(s, driver) >= 0
  {
    var advances := Advances(|s.books.entries|, s.pending, driver);
    var zeros := seq(|advances|, _ => 0);
    forall i | 0 <= i < |advances| ensures zeros[i] <= advances[i] {
      assert i in s.pending ==> RequestOk(s.books.entries, i, s.pending[i]);
      if IsAdvanceOf(s.pending, driver, i) { TakenBackIsWithin(s.pending[i].amount); }
    }
    SumOfZeros(zeros);
    SumMonotone(zeros, advances);
  }

  lemma AppendedRowsAreNotInFlight(count: nat, more: nat, pending: map<nat, Request>, driver: DriverId)
    requires forall id :: id in pending ==> id < count
    ensures Sum(Advances(count + more, pending, driver)) == Sum(Advances(count, pending, driver))
  {
    var before, zeros := Advances(count, pending, driver), seq(more, _ => 0);
    assert Advances(count + more, pending, driver) == before + zeros;
    SumConcat(before, zeros);
    SumOfZeros(zeros);
  }

  lemma AppendedRequest(count: nat, pending: map<nat, Request>, request: Request, driver: DriverId)
    requires forall id :: id in pending ==> id < count
    ensures Sum(Advances(count + 1, pending[count := request], driver))
            == Sum(Advances(count, pending, driver)) + TakenBackAt(pending[count := request], driver, count)
  {
    var before := Advances(count, pending, driver);
    var more := TakenBackAt(pending[count := request], driver, count);
    assert Advances(count + 1, pending[count := request], driver) == before + [more];
    SumConcat(before, [more]);
    SumOne(more);
  }

  lemma RequestEnds(count: nat, pending: map<nat, Request>, id: nat, driver: DriverId)
    requires id in pending && id < count
    ensures Sum(Advances(count, pending - {id}, driver))
            == Sum(Advances(count, pending, driver)) - TakenBackAt(pending, driver, id)
  {
    var before := Advances(count, pending, driver);
    assert Advances(count, pending - {id}, driver) == before[id := 0];
    SumUpdate(before, id, 0);
  }

  ghost predicate Filed(s: State) {
    forall id :: id in s.pending ==> id < |s.books.entries|
  }

  lemma RequestsAreFiled(s: State)
    requires RequestsOk(s)
    ensures Filed(s)
  {
  }

  /** Phase 1 of a request: its refusal would take back an advance. */
  lemma ReservedInFlight(s: State, books: Books, request: Request, d: DriverId)
    requires Filed(s) && |books.entries| == |s.books.entries| + 1
    ensures InFlight(Reserve(s, Some(books), request), d)
            == InFlight(s, d) + if request.Fuel? && request.driver == d then TakenBack(request.amount) else 0
  {
    AppendedRequest(|s.books.entries|, s.pending, request, d);
  }

  /** The books once an advance of so many kobo is reserved. */
  function WithAdvance(s: State, driver: DriverId, kobo: int): Books
    requires driver in s.books.drivers
  {
    WithBalance(s.books, driver, s.books.drivers[driver].walletBalance + kobo).(
      entries := s.books.entries + [Entry(None, DriverFuelSupport, DriverAccount(driver), kobo, Pending, s.now)])
  }

  lemma FuelReserves(s: State, driver: DriverId, amount: real)
    requires amount > 0.0 && ReserveFuel(s.books, driver, amount, s.dailyLimit, s.now).Some?
    ensures driver in s.books.drivers
    ensures ReserveFuel(s.books, driver, amount, s.dailyLimit, s.now).value
            == WithAdvance(s, driver, ToKobo(amount))
  {
  }

  /** An advance raises the wallet at least as much as the in-flight sum. */
  lemma AdvanceKeepsFloor(s: State, driver: DriverId, kobo: int, request: Request, d: DriverId)
    requires Filed(s) && AboveFloor(s, d) && driver in s.books.drivers && request.Fuel? && request.driver == driver
    requires TakenBack(request.amount) <= kobo
    ensures AboveFloor(Reserve(s, Some(WithAdvance(s, driver, kobo)), request), d)
  {
    ReservedInFlight(s, WithAdvance(s, driver, kobo), request, d);
  }

  lemma FuelKeepsFloor(s: State, driver: DriverId, amount: real, d: DriverId)
    requires Filed(s) && AboveFloor(s, d)
    ensures AboveFloor(Next(s, RequestFuel(driver, amount)), d)
  {
    if amount >= MIN_FUEL && ReserveFuel(s.books, driver, amount, s.dailyLimit, s.now).Some? {
      FuelReserves(s, driver, amount);
      TakenBackIsWithin(amount);
      AdvanceKeepsFloor(s, driver, ToKobo(amount), Fuel(driver, amount), d);
      assert Next(s, RequestFuel(driver, amount))
          == Reserve(s, Some(WithAdvance(s, driver, ToKobo(amount))), Fuel(driver, amount));
    }
  }

  /** A payout that leaves less behind than the advances in flight could take, beyond the limit. */
  ghost predicate UncoveredPayout(s: State, step: Step, d: DriverId) {
    && step.RequestPayout? && step.driver == d && step.amount >= MIN_PAYOUT
    && DebitPayout(s.books, d, step.amount, s.now).Some?
    && s.books.drivers[d].walletBalance - ToKobo(step.amount) + s.dailyLimit < InFlight(s, d)
  }

  /** A profile update that writes back a balance lower than that. */
  ghost predicate UncoveredProfile(s: State, step: Step, d: DriverId) {
    && step.SaveCopy? && step.c in s.copies && s.copies[step.c].ProfileCopy? && s.copies[step.c].driver == d
    && d in s.books.drivers && s.copies[step.c].walletBalance + s.dailyLimit < InFlight(s, d)
  }

  /** The books once a payout of so many kobo is debited. */
  function WithDebit(s: State, driver: DriverId, kobo: int): Books
    requires driver in s.books.drivers
  {
    WithBalance(s.books, driver, s.books.drivers[driver].walletBalance - kobo).(
      entries := s.books.entries + [Entry(None, DriverPayout, DriverAccount(driver), -kobo, Pending, s.now)])
  }

  lemma PayoutDebits(s: State, driver: DriverId, amount: real)
    requires amount > 0.0 && DebitPayout(s.books, driver, amount, s.now).Some?
    ensures driver in s.books.drivers
    ensures DebitPayout(s.books, driver, amount, s.now).value == WithDebit(s, driver, ToKobo(amount))
  {
  }

  lemma DebitFloorExactly(s: State, driver: DriverId, kobo: int, request: Request, d: DriverId)
    requires Filed(s) && AboveFloor(s, d) && driver in s.books.drivers && request.Payout?
    ensures AboveFloor(Reserve(s, Some(WithDebit(s, driver, kobo)), request), d) <==>
              (driver == d ==> s.books.drivers[d].walletBalance - kobo + s.dailyLimit >= InFlight(s, d))
  {
    ReservedInFlight(s, WithDebit(s, driver, kobo), request, d);
  }

  lemma PayoutFloorExactly(s: State, driver: DriverId, amount: real, d: DriverId)
    requires Filed(s) && AboveFloor(s, d)
    ensures AboveFloor(Next(s, RequestPayout(driver, amount)), d)
            <==> !UncoveredPayout(s, RequestPayout(driver, amount), d)
  {
    if amount >= MIN_PAYOUT && DebitPayout(s.books, driver, amount, s.now).Some? {
      PayoutDebits(s, driver, amount);
      DebitFloorExactly(s, driver, ToKobo(amount), Payout(driver, amount), d);
      assert Next(s, RequestPayout(driver, amount))
          == Reserve(s, Some(WithDebit(s, driver, ToKobo(amount))), Payout(driver, amount));
    }
  }

  /** While the driver's advances in flight are of one day, no payout is uncovered: the cap bounds them. */
  lemma OneDayIsCovered(s: State, step: Step, d: DriverId)
    requires Base(s) && Capped(s) && OneDay(s, d)
    ensures !UncoveredPayout(s, step, d)
  {
    if step.RequestPayout? && DebitPayout(s.books, d, step.amount, s.now).Some? {
      RoundingRespectsAllowance(step.amount, s.books.drivers[d].walletBalance);
      InFlightIsCapped(s, d);
    }
  }

  /** A request leaves the in-flight set, and takes out of the wallet at most what its refusal would. */
  lemma EndedRequestKeepsFloor(s: State, after: State, id: nat, d: DriverId)
    requires id in s.pending && id < |s.books.entries| && AboveFloor(s, d)
    requires after.pending == s.pending - {id} && after.dailyLimit == s.dailyLimit
    requires |after.books.entries| == |s.books.entries|
    requires d in after.books.drivers ==>
               && d in s.books.drivers
               && after.books.drivers[d].walletBalance
                  >= s.books.drivers[d].walletBalance - TakenBackAt(s.pending, d, id)
    ensures AboveFloor(after, d)
  {
    RequestEnds(|s.books.entries|, s.pending, id, d);
  }

  lemma TakenBackIsPositive(s: State, id: nat, d: DriverId)
    requires id in s.pending && RequestOk(s.books.entries, id, s.pending[id])
    ensures TakenBackAt(s.pending, d, id) >= 0
  {
    TakenBackIsWithin(s.pending[id].amount);
  }

  lemma AnswerKeepsFloor(s: State, id: nat, answer: GatewayAnswer, d: DriverId)
    requires RequestsOk(s) && AboveFloor(s, d) && id in s.pending
    ensures AboveFloor(Next(s, Answer(id, answer)), d)
  {
    var request := s.pending[id];
    assert RequestOk(s.books.entries, id, request);
    TakenBackIsPositive(s, id, d);
    PositiveKobo(request.amount);
    EndedRequestKeepsFloor(s, Next(s, Answer(id, answer)), id, d);
  }

  lemma PositiveKobo(amount: real)
    requires amount >= MIN_FUEL
    ensures ToKobo(amount) >= 0
  {
  }

  lemma CompletionKeepsFloor(s: State, ride: RideId, driver: DriverId, d: DriverId)
    requires Base(s) && AboveFloor(s, d)
    ensures AboveFloor(Complete(s, ride, driver), d)
  {
    var after := Complete(s, ride, driver);
    if after.books != s.books {
      var row := s.rides[ride];
      var split := SplitFareKobo(ToNaira(row.estimatedFare));
      var rows := FareEntries(ride, driver, row.user, split, s.now);
      RequestsAreFiled(s);
      AppendedRowsAreNotInFlight(|s.books.entries|, |rows|, s.pending, d);
      SplitConserves(ToNaira(row.estimatedFare));
      KoboRoundTrip(row.estimatedFare);
    }
  }

  lemma StopKeepsFloor(s: State, id: nat, d: DriverId)
    requires RequestsOk(s) && AboveFloor(s, d)
    ensures AboveFloor(Next(s, StopRequest(id)), d)
  {
    if id in s.pending {
      assert RequestOk(s.books.entries, id, s.pending[id]);
      TakenBackIsPositive(s, id, d);
      EndedRequestKeepsFloor(s, Next(s, StopRequest(id)), id, d);
    } else {
      assert s.pending - {id} == s.pending;
    }
  }

  lemma CopyIsWritten(s: State, c: CallId, d: DriverId)
    ensures var after := Next(s, SaveCopy(c));
            && after.pending == s.pending && after.books.entries == s.books.entries && after.dailyLimit == s.dailyLimit
            && (d in after.books.drivers <==> d in s.books.drivers)
            && (d in s.books.drivers ==>
                  after.books.drivers[d].walletBalance ==
                  if c in s.copies && s.copies[c].ProfileCopy? && s.copies[c].driver == d then s.copies[c].walletBalance
                  else s.books.drivers[d].walletBalance)
  {
  }

  lemma CopyFloorExactly(s: State, c: CallId, d: DriverId)
    requires AboveFloor(s, d)
    ensures AboveFloor(Next(s, SaveCopy(c)), d) <==> !UncoveredProfile(s, SaveCopy(c), d)
  {
    CopyIsWritten(s, c, d);
    assert InFlight(Next(s, SaveCopy(c)), d) == InFlight(s, d);
  }

  lemma SparedFloor(s: State, step: Step, d: DriverId)
    requires AboveFloor(s, d) && !MovesMoney(step) && !step.StopRequest?
    ensures AboveFloor(Next(s, step), d)
  {
  }

  /** A step keeps the driver above the floor if and only if it is not an uncovered payout or profile save of theirs. */
  lemma StepFloorExactly(s: State, step: Step, d: DriverId)
    requires Base(s) && AboveFloor(s, d)
    ensures AboveFloor(Next(s, step), d) <==> !UncoveredPayout(s, step, d) && !UncoveredProfile(s, step, d)
  {
    RequestsAreFiled(s);
    match step
    case CompleteRun(c) =>
      if c in s.calls && s.calls[c].CompleteLocked? { CompletionKeepsFloor(s, s.calls[c].ride, s.calls[c].driver, d); }
    case RequestFuel(driver, amount) => FuelKeepsFloor(s, driver, amount, d);
    case RequestPayout(driver, amount) => PayoutFloorExactly(s, driver, amount, d);
    case Answer(id, answer) => if id in s.pending { AnswerKeepsFloor(s, id, answer, d); }
    case StopRequest(id) => StopKeepsFloor(s, id, d);
    case SaveCopy(c) => CopyFloorExactly(s, c, d);
    case _ => SparedFloor(s, step, d);
  }

  /** The step is a payout or a profile save of the driver's that leaves too little behind. */
  ghost predicate Uncovered(s: State, step: Step, d: DriverId) {
    UncoveredPayout(s, step, d) || UncoveredProfile(s, step, d)
  }

  ghost predicate AllCovered(s: State, steps: seq<Step>, d: DriverId) {
    steps == [] || (&& AllCovered(s, steps[..|steps| - 1], d)
                    && !Uncovered(Run(s, steps[..|steps| - 1]), steps[|steps| - 1], d))
  }

  /** The wallet is below minus the daily fuel limit. */
  predicate Sunk(s: State, d: DriverId) {
    d in s.books.drivers && s.books.drivers[d].walletBalance + s.dailyLimit < 0
  }

  lemma {:induction false} CoveredRunsKeepTheFloor(s: State, steps: seq<Step>, d: DriverId)
    requires Base(s) && AboveFloor(s, d) && AllCovered(s, steps, d)
    ensures Base(Run(s, steps)) && AboveFloor(Run(s, steps), d) && !Sunk(Run(s, steps), d)
  {
    RunKeepsBase(s, steps);
    if steps != [] {
      CoveredRunsKeepTheFloor(s, steps[..|steps| - 1], d);
      StepFloorExactly(Run(s, steps[..|steps| - 1]), steps[|steps| - 1], d);
    }
    InFlightIsPositive(Run(s, steps), d);
  }

  lemma StartsAboveTheFloor(s: State, d: DriverId)
    requires Initial(s)
    ensures AboveFloor(s, d)
  {
    assert Advances(|s.books.entries|, s.pending, d) == [];
  }

  /**
   * A wallet never falls below minus the daily fuel limit, even across payouts
   * that spend advances the bank later declines, while every payout and
   * profile save leaves enough behind.
   */
  lemma WalletHasAFloor(s: State, steps: seq<Step>, driver: DriverId)
    requires Initial(s) && AllCovered(s, steps, driver)
    ensures AboveFloor(Run(s, steps), driver) && !Sunk(Run(s, steps), driver)
  {
    StartsAboveTheFloor(s, driver);
    CoveredRunsKeepTheFloor(s, steps, driver);
  }

  /** No stale profile save, and a payout only while the driver's advances in flight are of one day. */
  ghost predicate Prudent(s: State, step: Step) {
    !StaleProfileSave(s, step) && (step.RequestPayout? ==> OneDay(s, step.driver))
  }

  ghost predicate AllPrudent(s: State, steps: seq<Step>) {
    steps == [] || (&& AllPrudent(s, steps[..|steps| - 1])
                    && Prudent(Run(s, steps[..|steps| - 1]), steps[|steps| - 1]))
  }

  /** Prudence covers every step: no lock and no look at the balance is needed besides. */
  lemma {:induction false} PrudentRunsAreCovered(s: State, steps: seq<Step>, driver: DriverId)
    requires Initial(s) && AllPrudent(s, steps)
    ensures AllCovered(s, steps, driver)
  {
    if steps != [] {
      var front, last := steps[..|steps| - 1], steps[|steps| - 1];
      PrudentRunsAreCovered(s, front, driver);
      WalletHasAFloor(s, front, driver);
      RunStaysCapped(s, front);
      if last.RequestPayout? && last.driver == driver { OneDayIsCovered(Run(s, front), last, driver); }
    }
  }

  lemma {:induction false} RunFromFront(s: State, step: Step, steps: seq<Step>)
    ensures Run(s, [step] + steps) == Run(Next(s, step), steps)
  {
    if steps == [] {
      Then(s, [], step);
      assert [] + [step] == [step] + steps;
    } else {
      var front, last := steps[..|steps| - 1], steps[|steps| - 1];
      RunFromFront(s, step, front);
      Then(s, [step] + front, last);
      assert [step] + front + [last] == [step] + steps;
    }
  }

  lemma EndingShrinks(pending: map<nat, Request>, id: nat)
    requires id in pending
    ensures |pending - {id}| < |pending|
  {
  }

  lemma AnsweredIsNext(s: State, id: nat, answer: GatewayAnswer)
    requires id in s.pending
    ensures Next(s, Answer(id, answer)) == Answered(s, id, s.pending[id], answer)
    ensures Answered(s, id, s.pending[id], answer).pending == s.pending - {id}
    ensures Answered(s, id, s.pending[id], answer).dailyLimit == s.dailyLimit
  {
  }

  /** A declined advance leaves the wallet and the in-flight sum together. */
  lemma RefusalStaysBelow(s: State, id: nat, d: DriverId)
    requires d in s.books.drivers && !AboveFloor(s, d) && id < |s.books.entries| && IsAdvanceOf(s.pending, d, id)
    ensures var after := Next(s, Answer(id, Refused)); d in after.books.drivers && !AboveFloor(after, d)
  {
    var after := Answered(s, id, s.pending[id], Refused);
    AnsweredIsNext(s, id, Refused);
    assert after.books.drivers[d].walletBalance
        == s.books.drivers[d].walletBalance - TakenBack(s.pending[id].amount);
    RequestEnds(|s.books.entries|, s.pending, id, d);
  }

  /** What one refusal hands to the next. */
  lemma RefusalLeadsOn(s: State, id: nat)
    requires RequestsOk(s) && id in s.pending
    ensures id < |s.books.entries|
    ensures var after := Next(s, Answer(id, Refused)); RequestsOk(after) && |after.pending| < |s.pending|
  {
    assert RequestOk(s.books.entries, id, s.pending[id]);
    AnswerSettlesOne(s, id, Refused);
    EndingShrinks(s.pending, id);
  }

  lemma NothingInFlight(s: State, d: DriverId)
    requires forall id :: !IsAdvanceOf(s.pending, d, id)
    ensures InFlight(s, d) == 0
  {
    SumOfZeros(Advances(|s.books.entries|, s.pending, d));
  }

  predicate OnlyRefusals(steps: seq<Step>) {
    forall i :: 0 <= i < |steps| ==> steps[i].Answer? && steps[i].answer == Refused
  }

  lemma RefusalFirst(s: State, id: nat, rest: seq<Step>)
    requires OnlyRefusals(rest)
    ensures var steps := [Answer(id, Refused)] + rest;
            OnlyRefusals(steps) && Run(s, steps) == Run(Next(s, Answer(id, Refused)), rest)
  {
    RunFromFront(s, Answer(id, Refused), rest);
  }

  lemma {:induction false} RefusalsAreCovered(s: State, steps: seq<Step>, d: DriverId)
    requires OnlyRefusals(steps)
    ensures AllCovered(s, steps, d)
  {
    if steps != [] {
      RefusalsAreCovered(s, steps[..|steps| - 1], d);
    }
  }

  /**
   * The floor is exact: from a state below it, the bank declining what is in
   * flight sinks the wallet past the limit.
   */
  lemma {:induction false} BelowFloorCanSink(s: State, d: DriverId) returns (steps: seq<Step>)
    requires RequestsOk(s) && d in s.books.drivers && !AboveFloor(s, d)
    ensures Sunk(Run(s, steps), d) && OnlyRefusals(steps)
    decreases |s.pending|
  {
    if id :| IsAdvanceOf(s.pending, d, id) {
      RefusalLeadsOn(s, id);
      RefusalStaysBelow(s, id, d);
      var rest := BelowFloorCanSink(Next(s, Answer(id, Refused)), d);
      steps := [Answer(id, Refused)] + rest;
      RefusalFirst(s, id, rest);
    } else {
      NothingInFlight(s, d);
      steps := [];
    }
  }

  /** No later run of covered steps takes the wallet below minus the daily limit. */
  ghost predicate Safe(s: State, d: DriverId) {
    forall later :: AllCovered(s, later, d) ==> !Sunk(Run(s, later), d)
  }

  lemma SafeAboveTheFloor(s: State, d: DriverId)
    requires Base(s)
    ensures Safe(s, d) <==> AboveFloor(s, d)
  {
    if AboveFloor(s, d) {
      forall later | AllCovered(s, later, d) ensures !Sunk(Run(s, later), d) {
        CoveredRunsKeepTheFloor(s, later, d);
      }
    } else {
      var refusals := BelowFloorCanSink(s, d);
      RefusalsAreCovered(s, refusals, d);
      assert AllCovered(s, refusals, d) && Sunk(Run(s, refusals), d);
    }
  }

  /**
   * After any run of covered steps, a step keeps a driver's wallet safe if and
   * only if it is covered itself.
   */
  lemma StepIsSafeExactly(s: State, steps: seq<Step>, step: Step, d: DriverId)
    requires Initial(s) && AllCovered(s, steps, d)
    ensures Safe(Next(Run(s, steps), step), d) <==> !Uncovered(Run(s, steps), step, d)
  {
    StartsAboveTheFloor(s, d);
    CoveredRunsKeepTheFloor(s, steps, d);
    StepFloorExactly(Run(s, steps), step, d);
    Then(s, steps, step);
    RunKeepsBase(s, steps + [step]);
    SafeAboveTheFloor(Next(Run(s, steps), step), d);
  }
}
