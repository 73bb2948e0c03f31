/** Balances are caches of the ledger. */
module WalletLaws {
  import opened Prelude
  import opened Money
  import opened Ledger
  import opened Books
  import opened Platform
  import opened PlatformBase

  // ----- conservation -----

  /** A driver row is saved with money columns that moved since it was read. */
  predicate StaleProfileSave(s: State, step: Step) {
    && step.SaveCopy? && step.c in s.copies && s.copies[step.c].ProfileCopy?
    && var copy := s.copies[step.c];
    && copy.driver in s.books.drivers
    && !(copy.walletBalance == s.books.drivers[copy.driver].walletBalance
         && copy.totalCompletedRides == s.books.drivers[copy.driver].totalCompletedRides)
  }

  /** A rider row is saved with a cashback balance that moved since it was read. */
  predicate StaleRiderSave(s: State, step: Step) {
    && step.SaveCopy? && step.c in s.copies && s.copies[step.c].RiderCopy?
    && var copy := s.copies[step.c];
    && copy.rider in s.books.riders && copy.cashbackBalance != s.books.riders[copy.rider].cashbackBalance
  }

  /** The bank declines an advance of a half-kobo amount. */
  predicate HalfKoboRefusal(s: State, step: Step) {
    && step.Answer? && step.answer == Refused && step.id in s.pending
    && s.pending[step.id].Fuel? && s.pending[step.id].driver in s.books.drivers && IsHalfKobo(s.pending[step.id].amount)
  }

  predicate Faithful(s: State, step: Step) {
    !StaleProfileSave(s, step) && !StaleRiderSave(s, step) && !HalfKoboRefusal(s, step)
  }

  lemma AnswerConservesExactly(s: State, id: nat, answer: GatewayAnswer)
    requires RequestsOk(s) && Conserved(s.books) && id in s.pending
    ensures Conserved(Next(s, Answer(id, answer)).books) <==> !HalfKoboRefusal(s, Answer(id, answer))
  {
    var request := s.pending[id];
    assert RequestOk(s.books.entries, id, request);
    match answer
    case Refused =>
      var delta := if request.Fuel? then -request.amount else request.amount;
      ReversalConservesExactly(s.books, request.driver, delta, id);
      NegationRounds(request.amount);
    case Confirmed => ConfirmConserves(s.books, id, Completed);
    case Processing => ConfirmConserves(s.books, id, if request.Fuel? then Completed else Pending);
  }

  lemma ProfileConservesExactly(books: Books, copy: MoneyCopy)
    requires Conserved(books) && copy.ProfileCopy? && copy.driver in books.drivers
    ensures Conserved(WriteCopy(books, copy))
            <==> && copy.walletBalance == books.drivers[copy.driver].walletBalance
                 && copy.totalCompletedRides == books.drivers[copy.driver].totalCompletedRides
  {
    assert DriverConserved(books, copy.driver);
    if Conserved(WriteCopy(books, copy)) {
      assert DriverConserved(WriteCopy(books, copy), copy.driver);
    } else {
      assert WriteCopy(books, copy) != books;
    }
  }

  lemma RiderConservesExactly(books: Books, copy: MoneyCopy)
    requires Conserved(books) && copy.RiderCopy? && copy.rider in books.riders
    ensures Conserved(WriteCopy(books, copy)) <==> copy.cashbackBalance == books.riders[copy.rider].cashbackBalance
  {
    assert RiderConserved(books, copy.rider);
    if Conserved(WriteCopy(books, copy)) {
      assert RiderConserved(WriteCopy(books, copy), copy.rider);
    } else {
      assert WriteCopy(books, copy) != books;
    }
  }

  /** Saving a whole row keeps every cache true if and only if its money columns are as they were read. */
  lemma CopyConservesExactly(s: State, c: CallId)
    requires Conserved(s.books)
    ensures Conserved(Next(s, SaveCopy(c)).books)
            <==> !StaleProfileSave(s, SaveCopy(c)) && !StaleRiderSave(s, SaveCopy(c))
  {
    if c in s.copies {
      var copy := s.copies[c];
      if copy.ProfileCopy? && copy.driver in s.books.drivers {
        ProfileConservesExactly(s.books, copy);
      } else if copy.RiderCopy? && copy.rider in s.books.riders {
        RiderConservesExactly(s.books, copy);
      }
    }
  }

  lemma CompletionConserves(s: State, ride: RideId, driver: DriverId)
    requires Conserved(s.books)
    ensures Conserved(Complete(s, ride, driver).books)
  {
    if ride in s.rides {
      var row := s.rides[ride];
      if SettleFare(s.books, ride, driver, row.user, row.estimatedFare, s.now).Some? {
        SettleFareConserves(s.books, ride, driver, row.user, row.estimatedFare, s.now);
      }
    }
  }

  predicate MovesMoney(step: Step) {
    || step.CompleteRun? || step.RequestFuel? || step.RequestPayout? || step.Answer?
    || step.SaveCopy?
  }

  lemma BooksUntouched(s: State, step: Step)
    requires !MovesMoney(step)
    ensures Next(s, step).books == s.books
  {
  }

  lemma ReservationConserves(s: State, step: Step)
    requires Conserved(s.books) && (step.RequestFuel? || step.RequestPayout?)
    ensures Conserved(Next(s, step).books)
  {
    match step
    case RequestFuel(driver, amount) =>
      if amount >= MIN_FUEL && ReserveFuel(s.books, driver, amount, s.dailyLimit, s.now).Some? {
        ReserveFuelConserves(s.books, driver, amount, s.dailyLimit, s.now);
      }
    case RequestPayout(driver, amount) =>
      if amount >= MIN_PAYOUT && DebitPayout(s.books, driver, amount, s.now).Some? {
        DebitPayoutConserves(s.books, driver, amount, s.now);
      }
  }

  /**
   * From a state in which every balance equals its ledger sum, a step keeps
   * that so if and only if it is not the save of a driver or rider row whose
   * money moved since it was read, and not the refusal of a half-kobo advance.
   */
  lemma StepConservesExactly(s: State, step: Step)
    requires RequestsOk(s) && Conserved(s.books)
    ensures Conserved(Next(s, step).books) <==> Faithful(s, step)
  {
    if !MovesMoney(step) {
      BooksUntouched(s, step);
    } else if step.RequestFuel? || step.RequestPayout? {
      ReservationConserves(s, step);
    } else if step.CompleteRun? {
      if step.c in s.calls && s.calls[step.c].CompleteLocked? {
        CompletionConserves(s, s.calls[step.c].ride, s.calls[step.c].driver);
      }
    } else if step.Answer? {
      if step.id in s.pending { AnswerConservesExactly(s, step.id, step.answer); }
    } else {
      CopyConservesExactly(s, step.c);
    }
  }

  predicate AllFaithful(s: State, steps: seq<Step>) {
    steps == [] || (AllFaithful(s, steps[..|steps| - 1]) && Faithful(Run(s, steps[..|steps| - 1]), steps[|steps| - 1]))
  }

  /**
   * In every interleaving of fuel, payout, reversal and completion steps, with
   * refusals and calls that stop halfway: wallet, cashback and ride count are
   * what the ledger sums to, as long as no step is one of these exceptions.
   */
  lemma {:induction false} BalancesAreCaches(s: State, steps: seq<Step>)
    requires Initial(s) && AllFaithful(s, steps)
    ensures Conserved(Run(s, steps).books)
  {
    if steps == [] {
      forall weight: Weight ensures Total(s.books.entries, weight) == 0 {
        TotalOfNone(s.books.entries, weight);
      }
    } else {
      BalancesAreCaches(s, steps[..|steps| - 1]);
      RunKeepsBase(s, steps[..|steps| - 1]);
      StepConservesExactly(Run(s, steps[..|steps| - 1]), steps[|steps| - 1]);
    }
  }

  // ----- payouts, and rows read and saved at once -----

  /**
   * A payout is debited exactly when it is large enough and the wallet holds
   * it: the wallet gives up its kobo, a pending entry written now records it,
   * and it waits for the gateway. Otherwise it changes nothing.
   */
  lemma PayoutIsDebitedExactly(s: State, driver: DriverId, amount: real)
    ensures var after := Next(s, RequestPayout(driver, amount));
            if && driver in s.books.drivers && amount >= 500.0
               && amount <= ToNaira(s.books.drivers[driver].walletBalance) then
              var row := s.books.drivers[driver];
              var e := Entry(None, DriverPayout, DriverAccount(driver), -ToKobo(amount), Pending, s.now);
              after == s.(
                books := s.books.(
                  drivers := s.books.drivers[driver := row.(walletBalance := row.walletBalance - ToKobo(amount))],
                  entries := s.books.entries + [e]),
                pending := s.pending[|s.books.entries| := Payout(driver, amount)])
            else after == s
  {
    if amount >= 500.0 { StoredIsKobo(amount); }
  }

  /** A driver row saved with nothing in between is saved as it was read. */
  lemma ProfileSavedAtOnce(s: State, c: CallId, driver: DriverId)
    requires c !in s.copies && driver in s.books.drivers
    ensures var loaded := Next(s, LoadProfile(c, driver)); c in loaded.copies && Next(loaded, SaveCopy(c)) == s
  {
    var loaded := Next(s, LoadProfile(c, driver));
    assert loaded.copies - {c} == s.copies;
    assert WriteCopy(s.books, loaded.copies[c]).drivers == s.books.drivers;
  }

  /** And so is a rider row. */
  lemma RiderSavedAtOnce(s: State, c: CallId, rider: UserId)
    requires c !in s.copies && rider in s.books.riders && !s.books.riders[rider].isBlocked
    ensures var loaded := Next(s, LoadRider(c, rider)); c in loaded.copies && Next(loaded, SaveCopy(c)) == s
  {
    var loaded := Next(s, LoadRider(c, rider));
    assert loaded.copies - {c} == s.copies;
    assert WriteCopy(s.books, loaded.copies[c]).riders == s.books.riders;
  }
}
