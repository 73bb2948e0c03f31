/** Whole wallet calls: what a gateway's answer leaves behind (src/wallet/wallet.service.ts). */
module Wallet {
  import opened Prelude
  import opened Money
  import opened Ledger
  import opened Books

  datatype WalletError = Busy | OverLimit | Insufficient | Declined | UnknownDriver

  datatype PayoutAnswer = PayoutCompleted | PayoutProcessing | PayoutFailed

  /** A call's effect, and its error if it threw. */
  datatype Effect = Effect(books: Books, error: Option<WalletError>)

  function FuelSupport(b: Books, driver: DriverId, amount: real, dailyLimit: int, now: int, approved: bool): Effect {
    if driver !in b.drivers then Effect(b, Some(UnknownDriver))
    else
      var reserved := ReserveFuel(b, driver, amount, dailyLimit, now);
      if reserved.None? then Effect(b, Some(OverLimit))
      else if !approved then Effect(ReverseBalance(reserved.value, driver, -amount, |b.entries|), Some(Declined))
      else Effect(reserved.value.(entries := SettleEntry(reserved.value.entries, |b.entries|, Completed)), None)
  }

  function RequestPayout(b: Books, driver: DriverId, amount: real, now: int, answer: PayoutAnswer): Effect {
    if driver !in b.drivers then Effect(b, Some(UnknownDriver))
    else
      var debited := DebitPayout(b, driver, amount, now);
      if debited.None? then Effect(b, Some(Insufficient))
      else if answer == PayoutFailed then
        Effect(ReverseBalance(debited.value, driver, amount, |b.entries|), Some(Declined))
      else
        var status := if answer == PayoutCompleted then Completed else Pending;
        Effect(debited.value.(entries := SettleEntry(debited.value.entries, |b.entries|, status)), None)
  }

  /**
   * A declined advance puts every balance back, and keeps a failed entry, except
   * that a half-kobo amount leaves one kobo.
   */
  lemma DeclinedFuelRestores(b: Books, driver: DriverId, amount: real, dailyLimit: int, now: int)
    requires amount > 0.0 && FuelSupport(b, driver, amount, dailyLimit, now, false).error == Some(Declined)
    ensures var after := FuelSupport(b, driver, amount, dailyLimit, now, false).books;
            && after.riders == b.riders && driver in b.drivers
            && after.drivers == b.drivers[driver := b.drivers[driver].(
                 walletBalance := b.drivers[driver].walletBalance + if IsHalfKobo(amount) then 1 else 0)]
            && after.entries ==
               b.entries + [Entry(None, DriverFuelSupport, DriverAccount(driver), ToKobo(amount), Failed, now)]
  {
    StoredIsKobo(amount);
    NegationRounds(amount);
  }

  /** A failed payout puts every balance back to the kobo, and keeps a failed entry. */
  lemma FailedPayoutRestores(b: Books, driver: DriverId, amount: real, now: int)
    requires amount > 0.0 && RequestPayout(b, driver, amount, now, PayoutFailed).error == Some(Declined)
    ensures var after := RequestPayout(b, driver, amount, now, PayoutFailed).books;
            && after.riders == b.riders && after.drivers == b.drivers
            && after.entries ==
               b.entries + [Entry(None, DriverPayout, DriverAccount(driver), -ToKobo(amount), Failed, now)]
  {
  }

  /**
   * A payout is refused exactly when it is more than the wallet holds; otherwise
   * it takes its kobo, and never overdraws.
   */
  lemma PayoutNeverOverdraws(b: Books, driver: DriverId, amount: real, now: int, answer: PayoutAnswer)
    requires amount > 0.0 && driver in b.drivers
    ensures var effect := RequestPayout(b, driver, amount, now, answer);
            && (effect.error == Some(Insufficient) <==> amount > ToNaira(b.drivers[driver].walletBalance))
            && (effect.error.None? ==>
                  && driver in effect.books.drivers
                  && effect.books.drivers[driver].walletBalance == b.drivers[driver].walletBalance - ToKobo(amount)
                  && effect.books.drivers[driver].walletBalance >= 0)
  {
    if amount <= ToNaira(b.drivers[driver].walletBalance) {
      RoundingRespectsAllowance(amount, b.drivers[driver].walletBalance);
    }
  }

  /**
   * What a whole payout answers, and what one that goes through leaves: the
   * wallet gives up its kobo, and an entry written now says whether the money
   * has arrived or is on its way.
   */
  lemma RequestPayoutExactly(b: Books, driver: DriverId, amount: real, now: int, answer: PayoutAnswer)
    requires amount > 0.0
    ensures var enough := driver in b.drivers && amount <= ToNaira(b.drivers[driver].walletBalance);
            var effect := RequestPayout(b, driver, amount, now, answer);
            && (effect.error == Some(UnknownDriver) <==> driver !in b.drivers)
            && (effect.error == Some(Insufficient) <==> driver in b.drivers && !enough)
            && (effect.error == Some(Declined) <==> enough && answer == PayoutFailed)
            && (effect.error == None <==> enough && answer != PayoutFailed)
            && (effect.error in {Some(UnknownDriver), Some(Insufficient)} ==> effect.books == b)
            && (effect.error == None ==>
                  var row := b.drivers[driver];
                  var status := if answer == PayoutCompleted then Completed else Pending;
                  var e := Entry(None, DriverPayout, DriverAccount(driver), -ToKobo(amount), status, now);
                  effect.books == b.(
                    drivers := b.drivers[driver := row.(walletBalance := row.walletBalance - ToKobo(amount))],
                    entries := b.entries + [e]))
  {
    StoredIsKobo(amount);
  }

  /** getFuelSupportLimit: what is left of today's allowance. */
  function FuelRemaining(b: Books, driver: DriverId, dailyLimit: int, now: int): int {
    var left := dailyLimit - Total(b.entries, FuelWeight(driver, TodayWindow(now)));
    if left > 0 then left else 0
  }

  /**
   * The allowance shown is the allowance enforced: a positive amount is
   * refused for the limit exactly when it is more than what is shown, and an
   * approved one comes off it in full.
   */
  lemma AllowanceIsEnforced(b: Books, driver: DriverId, amount: real, dailyLimit: int, now: int)
    requires driver in b.drivers && amount > 0.0
    ensures var shown := FuelRemaining(b, driver, dailyLimit, now);
            var effect := FuelSupport(b, driver, amount, dailyLimit, now, true);
            && (effect.error == Some(OverLimit) <==> amount > ToNaira(shown))
            && (effect.error.None? ==> FuelRemaining(effect.books, driver, dailyLimit, now) == shown - ToKobo(amount))
  {
    var used := Total(b.entries, FuelWeight(driver, TodayWindow(now)));
    var reserved := ReserveFuel(b, driver, amount, dailyLimit, now);
    if reserved.Some? {
      StoredIsKobo(amount);
      RoundingRespectsAllowance(amount, dailyLimit - used);
      var e := Entry(None, DriverFuelSupport, DriverAccount(driver), ToKobo(amount), Pending, now);
      TotalAppend(b.entries, e, FuelWeight(driver, TodayWindow(now)));
      TotalSettle(b.entries + [e], |b.entries|, Completed, FuelWeight(driver, TodayWindow(now)));
    }
  }
}
