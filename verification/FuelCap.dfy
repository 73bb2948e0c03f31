/**
 * The daily fuel allowance, with no lock at all. A day is 86 400 000 ms; day k
 * runs from 86 400 000 k up to, and not including, 86 400 000 (k + 1).
 */
module FuelCap {
  import opened Prelude
  import opened Money
  import opened Ledger
  import opened Books
  import opened Platform
  import opened PlatformBase
  import opened WalletLaws
  import opened Wallet

  // ----- days -----

  function DayWindow(k: int): Window {
    Window(86_400_000 * k, 86_400_000 * (k + 1) - 1)
  }

  lemma InItsDay(at: int)
    ensures forall k :: DayWindow(k).Holds(at) <==> k == at / 86_400_000
  {
  }

  lemma TodayIsItsDay(now: int)
    ensures TodayWindow(now) == DayWindow(now / 86_400_000)
  {
  }

  /** The driver's standing advances written from one instant on and before another. */
  function AdvanceWeight(driver: DriverId, start: int, end: int): Weight {
    (e: Entry) =>
      if && e.kind == DriverFuelSupport && e.owner == DriverAccount(driver) && start <= e.createdAt < end
         && (e.status == Pending || e.status == Completed) then e.amount else 0
  }

  /** What the driver's standing advances of day k sum to. */
  function Advanced(entries: Entries, driver: DriverId, k: int): int {
    Total(entries, AdvanceWeight(driver, 86_400_000 * k, 86_400_000 * (k + 1)))
  }

  lemma AdvancedIsCounted(entries: Entries, driver: DriverId, k: int)
    ensures Advanced(entries, driver, k) == Total(entries, FuelWeight(driver, DayWindow(k)))
  {
    var start, end := 86_400_000 * k, 86_400_000 * (k + 1);
    assert Weights(entries, AdvanceWeight(driver, start, end)) == Weights(entries, FuelWeight(driver, DayWindow(k)));
  }

  lemma AdvancedToday(entries: Entries, driver: DriverId, now: int)
    ensures Advanced(entries, driver, now / 86_400_000) == Total(entries, FuelWeight(driver, TodayWindow(now)))
  {
    TodayIsItsDay(now);
    AdvancedIsCounted(entries, driver, now / 86_400_000);
  }

  // ----- one request -----

  /** The request is large enough, and within what is left of the day it is made on. */
  predicate Granted(s: State, driver: DriverId, amount: real) {
    && driver in s.books.drivers && amount >= 100.0
    && amount <= ToNaira(s.dailyLimit - Advanced(s.books.entries, driver, s.now / 86_400_000))
  }

  /**
   * A request is granted exactly then: the wallet gains its kobo, a pending
   * entry written now records it, and it waits for the bank. Otherwise it
   * changes nothing.
   */
  lemma FuelIsGrantedExactly(s: State, driver: DriverId, amount: real)
    ensures var after := Next(s, RequestFuel(driver, amount));
            if Granted(s, driver, amount) then
              var row := s.books.drivers[driver];
              var e := Entry(None, DriverFuelSupport, DriverAccount(driver), ToKobo(amount), Pending, s.now);
              after == s.(
                books := s.books.(
                  drivers := s.books.drivers[driver := row.(walletBalance := row.walletBalance + ToKobo(amount))],
                  entries := s.books.entries + [e]),
                pending := s.pending[|s.books.entries| := Fuel(driver, amount)])
            else after == s
  {
    AdvancedToday(s.books.entries, driver, s.now);
    if amount >= 100.0 { StoredIsKobo(amount); }
  }

  // ----- every run -----

  ghost predicate Capped(s: State) {
    forall d, k :: Total(s.books.entries, FuelWeight(d, DayWindow(k))) <= s.dailyLimit
  }

  lemma SettlingKeepsCap(entries: Entries, id: nat, status: Status, driver: DriverId, k: int)
    requires id < |entries| && FuelIsPositive(entries) && entries[id].status == Pending
    ensures Total(SettleEntry(entries, id, status), FuelWeight(driver, DayWindow(k)))
            <= Total(entries, FuelWeight(driver, DayWindow(k)))
  {
    TotalSettle(entries, id, status, FuelWeight(driver, DayWindow(k)));
  }

  lemma FuelKeepsCap(s: State, driver: DriverId, amount: real)
    requires Capped(s)
    ensures Capped(Next(s, RequestFuel(driver, amount)))
  {
    FuelIsGrantedExactly(s, driver, amount);
    if Granted(s, driver, amount) {
      var today := s.now / 86_400_000;
      var e := Entry(None, DriverFuelSupport, DriverAccount(driver), ToKobo(amount), Pending, s.now);
      AdvancedIsCounted(s.books.entries, driver, today);
      RoundingRespectsAllowance(amount, s.dailyLimit - Advanced(s.books.entries, driver, today));
      InItsDay(s.now);
      forall d, k ensures Total(s.books.entries + [e], FuelWeight(d, DayWindow(k))) <= s.dailyLimit {
        TotalAppend(s.books.entries, e, FuelWeight(d, DayWindow(k)));
      }
    }
  }

  lemma PayoutKeepsCap(s: State, driver: DriverId, amount: real)
    requires Capped(s)
    ensures Capped(Next(s, RequestPayout(driver, amount)))
  {
    var debited := DebitPayout(s.books, driver, amount, s.now);
    if amount >= MIN_PAYOUT && debited.Some? {
      var e := Entry(None, DriverPayout, DriverAccount(driver), Stored(-amount), Pending, s.now);
      forall d, k ensures Total(debited.value.entries, FuelWeight(d, DayWindow(k))) <= s.dailyLimit {
        TotalAppend(s.books.entries, e, FuelWeight(d, DayWindow(k)));
      }
    }
  }

  lemma CompletionKeepsCap(s: State, ride: RideId, driver: DriverId)
    requires Capped(s)
    ensures Capped(Complete(s, ride, driver))
  {
    var after := Complete(s, ride, driver);
    if after.books != s.books {
      var row := s.rides[ride];
      var rows := FareEntries(ride, driver, row.user, SplitFareKobo(ToNaira(row.estimatedFare)), s.now);
      forall d, k ensures Total(after.books.entries, FuelWeight(d, DayWindow(k))) <= s.dailyLimit {
        TotalThree(s.books.entries, rows[0], rows[1], rows[2], FuelWeight(d, DayWindow(k)));
      }
    }
  }

  lemma AnswerKeepsCap(s: State, id: nat, answer: GatewayAnswer)
    requires RequestsOk(s) && Capped(s) && id in s.pending
    ensures Capped(Next(s, Answer(id, answer)))
  {
    AnswerSettlesOne(s, id, answer);
    assert RequestOk(s.books.entries, id, s.pending[id]);
    var after := Next(s, Answer(id, answer));
    forall d, k ensures Total(after.books.entries, FuelWeight(d, DayWindow(k))) <= s.dailyLimit {
      SettlingKeepsCap(s.books.entries, id, SettledAs(s.pending[id], answer), d, k);
    }
  }

  lemma SparedCap(s: State, step: Step)
    requires Capped(s) && (!MovesMoney(step) || step.SaveCopy?)
    ensures Capped(Next(s, step))
  {
  }

  lemma LimitIsFixed(s: State, step: Step)
    ensures Next(s, step).dailyLimit == s.dailyLimit
  {
  }

  lemma StepKeepsCap(s: State, step: Step)
    requires RequestsOk(s) && Capped(s)
    ensures Capped(Next(s, step)) && Next(s, step).dailyLimit == s.dailyLimit
  {
    LimitIsFixed(s, step);
    match step
    case CompleteRun(c) =>
      if c in s.calls && s.calls[c].CompleteLocked? { CompletionKeepsCap(s, s.calls[c].ride, s.calls[c].driver); }
    case RequestFuel(driver, amount) => FuelKeepsCap(s, driver, amount);
    case RequestPayout(driver, amount) => PayoutKeepsCap(s, driver, amount);
    case Answer(id, answer) => if id in s.pending { AnswerKeepsCap(s, id, answer); }
    case _ => SparedCap(s, step);
  }

  lemma {:induction false} RunStaysCapped(s: State, steps: seq<Step>)
    requires Initial(s)
    ensures var after := Run(s, steps); Base(after) && Capped(after) && after.dailyLimit == s.dailyLimit
  {
    if steps == [] {
      forall weight: Weight ensures Total(s.books.entries, weight) == 0 {
        TotalOfNone(s.books.entries, weight);
      }
    } else {
      RunStaysCapped(s, steps[..|steps| - 1]);
      RunKeepsBase(s, steps);
      StepKeepsCap(Run(s, steps[..|steps| - 1]), steps[|steps| - 1]);
    }
  }

  /**
   * In every run, for every driver and day, the standing advances written on
   * that day never exceed the daily limit, even if the fuel lock never held
   * anyone back.
   */
  lemma FuelStaysCapped(s: State, steps: seq<Step>, driver: DriverId, k: int)
    requires Initial(s)
    ensures Advanced(Run(s, steps).books.entries, driver, k) <= s.dailyLimit
  {
    RunStaysCapped(s, steps);
    AdvancedIsCounted(Run(s, steps).books.entries, driver, k);
    assert Total(Run(s, steps).books.entries, FuelWeight(driver, DayWindow(k))) <= Run(s, steps).dailyLimit;
  }

  // ----- the next day -----

  ghost predicate WrittenByNow(s: State) {
    forall i :: 0 <= i < |s.books.entries| ==> s.books.entries[i].createdAt <= s.now
  }

  lemma CompletionWritesNow(s: State, ride: RideId, driver: DriverId)
    requires WrittenByNow(s)
    ensures WrittenByNow(Complete(s, ride, driver)) && Complete(s, ride, driver).now == s.now
  {
  }

  lemma MoneyWritesNow(s: State, step: Step)
    requires WrittenByNow(s) && (step.RequestFuel? || step.RequestPayout? || step.Answer? || step.SaveCopy?)
    ensures WrittenByNow(Next(s, step))
  {
  }

  lemma StepWritesNow(s: State, step: Step)
    requires WrittenByNow(s)
    ensures WrittenByNow(Next(s, step))
  {
    if step.CompleteRun? {
      if step.c in s.calls && s.calls[step.c].CompleteLocked? {
        CompletionWritesNow(s, s.calls[step.c].ride, s.calls[step.c].driver);
      }
    } else if MovesMoney(step) {
      MoneyWritesNow(s, step);
    } else {
      BooksUntouched(s, step);
    }
  }

  lemma {:induction false} RunWritesNow(s: State, steps: seq<Step>)
    requires Initial(s)
    ensures WrittenByNow(Run(s, steps))
  {
    if steps != [] {
      RunWritesNow(s, steps[..|steps| - 1]);
      StepWritesNow(Run(s, steps[..|steps| - 1]), steps[|steps| - 1]);
    }
  }

  lemma NothingYet(entries: Entries, now: int, driver: DriverId, k: int)
    requires forall i :: 0 <= i < |entries| ==> entries[i].createdAt <= now
    requires now / 86_400_000 < k
    ensures Advanced(entries, driver, k) == 0
  {
    TotalOfNone(entries, AdvanceWeight(driver, 86_400_000 * k, 86_400_000 * (k + 1)));
  }

  lemma {:induction false} LimitNeverMoves(s: State, steps: seq<Step>)
    ensures Run(s, steps).dailyLimit == s.dailyLimit
  {
    if steps != [] {
      LimitNeverMoves(s, steps[..|steps| - 1]);
      LimitIsFixed(Run(s, steps[..|steps| - 1]), steps[|steps| - 1]);
    }
  }

  lemma MorningAfter(s: State, ms: nat, driver: DriverId, amount: real)
    requires WrittenByNow(s) && driver in s.books.drivers && s.now / 86_400_000 < (s.now + ms) / 86_400_000
    ensures Granted(s.(now := s.now + ms), driver, amount) <==> 100.0 <= amount <= ToNaira(s.dailyLimit)
  {
    NothingYet(s.books.entries, s.now, driver, (s.now + ms) / 86_400_000);
  }

  /** Whatever was advanced before, the first request of a new day may take the whole limit again. */
  lemma AllowanceIsBack(s: State, steps: seq<Step>, ms: nat, driver: DriverId, amount: real)
    requires Initial(s) && driver in Run(s, steps).books.drivers
    requires Run(s, steps).now / 86_400_000 < (Run(s, steps).now + ms) / 86_400_000
    ensures var morning := Next(Run(s, steps), Tick(ms));
            Granted(morning, driver, amount) <==> 100.0 <= amount <= ToNaira(s.dailyLimit)
  {
    var before := Run(s, steps);
    assert Next(before, Tick(ms)) == before.(now := before.now + ms);
    RunWritesNow(s, steps);
    LimitNeverMoves(s, steps);
    MorningAfter(before, ms, driver, amount);
  }

  // ----- the whole call -----

  /** The allowance shown is what is left of the day's limit, and never negative. */
  lemma AllowanceIsShown(b: Books, driver: DriverId, dailyLimit: int, now: int)
    ensures var left := dailyLimit - Advanced(b.entries, driver, now / 86_400_000);
            FuelRemaining(b, driver, dailyLimit, now) == if left < 0 then 0 else left
  {
    AdvancedToday(b.entries, driver, now);
  }

  /**
   * What a whole request answers, and what an approved one leaves: the wallet
   * and the day's advances grow by its kobo.
   */
  lemma FuelSupportExactly(b: Books, driver: DriverId, amount: real, dailyLimit: int, now: int, approved: bool)
    requires amount > 0.0
    ensures var left := dailyLimit - Advanced(b.entries, driver, now / 86_400_000);
            var e := Entry(None, DriverFuelSupport, DriverAccount(driver), ToKobo(amount), Completed, now);
            var effect := FuelSupport(b, driver, amount, dailyLimit, now, approved);
            && (effect.error == Some(UnknownDriver) <==> driver !in b.drivers)
            && (effect.error == Some(OverLimit) <==> driver in b.drivers && amount > ToNaira(left))
            && (effect.error == Some(Declined) <==> driver in b.drivers && amount <= ToNaira(left) && !approved)
            && (effect.error == None <==> driver in b.drivers && amount <= ToNaira(left) && approved)
            && (effect.error in {Some(UnknownDriver), Some(OverLimit)} ==> effect.books == b)
            && (effect.error == None ==>
                  effect.books == b.(
                    drivers := b.drivers[driver := b.drivers[driver].(
                      walletBalance := b.drivers[driver].walletBalance + ToKobo(amount))],
                    entries := b.entries + [e]))
  {
    AdvancedToday(b.entries, driver, now);
    StoredIsKobo(amount);
  }
}
