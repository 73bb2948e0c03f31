# Ark Rides: a verified model of sessions, money and dispatch

This project models the parts of the Ark Rides backend whose correctness spans
many calls, and proves what they promise:

- **Sessions.** The refresh-token table, the SQL statements `TokenService` runs on
  it, and its whole calls. A concurrent machine runs any number of rotations,
  sign-outs, sign-ins, account revocations and sweeps together. One statement or
  one transaction is one step, and between steps a call keeps only its stale copy
  of the row it read. `revokeFamily` exists both as its two UPDATEs and as one step,
  a call may stop for good anywhere, and account rows are also saved back as an
  earlier read showed them.
- **Money.** Kobo rounding, the 95 / 4 / 1 split, the append-only ledger with its
  unique index on (ride, type), and the wallet, cashback and ride-count columns
  that cache it.
- **The platform machine.** Ride calls that read a row and later save the whole
  row they read, the load check as a read of its own, expiring Redis locks, the
  completion transaction, fuel and payout requests with any gateway answer, driver
  updates and Privy sign-ins that write back stale money columns, and calls that stop
  for good between steps.
- **Dispatch.** The same ride calls and the driver-status calls as whole calls: pooling
  limits, the active-ride pointer, timestamps, the online flag, and the breakdown
  both parties see.
- **What callers are told.** For each whole call, when it succeeds, which refusal it
  gives otherwise, and every column it writes, in literal prices, shares, days and
  roles; and, in every run, that a ride is paid the price it was ordered at and a
  session stays with its account.
- **Local midnight.** The two-pass solve of `startOfDayIn` under any offset
  function that changes at most once around the day.

`TokenServices.TokenService` and the classes in `Services` are the objects the
repository has. They update their tables in place, and each method is proved against the
function of the same name. The laws are then proved about those functions. The two
machines are tied to the same functions: `TokenAtomic` and `PlatformAtomic` prove
that a call which runs with nothing in between does what the whole call does.

Identifiers and tokens are fresh numbers, hashing is injective, the clock never
goes back, and amounts stored in decimal(x,2) columns are integers in kobo. Amounts in
requests are exact reals, so rounding to kobo is part of the model.

## Where the code and its own documentation disagree

The model follows the code. Each of these is proved, and the exact condition
under which the promise does hold is proved beside it.

- When two rotations present one token, the comment on the mint transaction
  (`src/auth/services/token.service.ts:156-162`) says nobody keeps the session. It takes
  the loser's return from its revoke: a loser that stops after it found the race lost,
  and before it has revoked the family, leaves the winner with the session and no trace
  of the reuse (`StoppedLoserSparesTheSession`). Any two rotations that tried to claim the
  token seal the family otherwise (`NobodyKeepsAForkedSession`).
- After a detected reuse a live row can still remain: exactly when a mint commits while
  a reuse revoke of the family is, or has stopped for good, between its two UPDATEs
  (`BreachLeavesALiveRow`, `StepStaysCleanExactly`). That row cannot be exchanged while
  a stamped one is there (`BreachIsFinal`).
- Suspension ends the sessions (`src/drivers/drivers.service.ts:465-471`), but a driver
  update that read the row before it and saves after it makes the driver active again
  (`StaleSaveUndoesASuspension`). Reinstatements aside, a suspension lasts exactly when
  no call holds such a copy of the row (`SuspensionHoldsExactly`).
- The sweep can delete the stamped row and leave the live one, which is then
  exchanged (`SweepForgetsABreach`), although the grace period is meant to keep
  reuse detectable (`src/auth/services/token.service.ts:253-256`). Sweeps included, a
  family can be exchanged again exactly while it has an unexpired live row, an
  exchange in flight, or a call past the expiry check on a live row
  (`ExchangedAgainExactly`).
- Declining a fuel advance whose amount falls on a half kobo leaves one kobo in
  the wallet (`HalfKoboStaysBehind`). A driver update or sign-in that read the driver
  before a money move overwrites that move when it saves (`StaleProfileErasesMoney`), and
  a rider's sign-in does the same to a cashback paid meanwhile
  (`StaleSignInErasesCashback`). These three steps, and no other step of the machine, part
  a balance from its ledger sum (`StepConservesExactly`).
- A ride lock that expires before its holder saves lets two drivers accept one
  ride (`ExpiryLetsTwoAccept`). The harm is exact: a call is at work on the ride, and
  its row is still REQUESTED (`ExpiryIsSafeExactly`). Settlement does not depend on the
  lock.
- A COMPLETED ride is not to be cancelled (`src/rides/rides.service.ts:510`), and yet one
  whose fare is settled ends CANCELLED when a cancel read its row before the completion
  and saves after it, with every lock in place (`SettledAndCancelled`). A ride that is
  over keeps its status in all later runs exactly when no call in flight read it under
  another one and has yet to save it (`EndIsFinalExactly`).
- The pooling limits (`src/rides/utils/category-matching.util.ts:31-37`) are checked
  under a lock of the ride, not of the driver: a driver who accepts two exclusive
  rides at once has both (`TwoExclusivesAtOnce`). They hold exactly as long as the
  check, repeated at the moment of the save, would still pass (`StepKeepsLoadExactly`).
- A wallet can sink to minus twice the daily limit, when advances of two days are in
  flight across midnight (`FloorNeedsOneDay`). It stays at or above minus the limit
  exactly as long as each payout and profile save leaves behind what refusing the
  advances in flight would take (`StepIsSafeExactly`).
- On a day whose midnight the clock skips, the start of day lands in the previous
  calendar day in zones west of UTC, although the source's comment on transition
  days (`src/stats/stats.service.ts:676-688`) promises otherwise; and the result
  can lie in the future, which `src/stats/stats.service.spec.ts:68` denies
  (`SkippedMidnight`, `NeverInTheFutureExactly`).
- Completing one of several pooled rides drops the driver's active-ride pointer
  with the comment that the driver is free again
  (`src/rides/rides.service.ts:490-492`); they are free exactly when it was their
  only active ride (`CompletionFreesTheDriverExactly`).

## Model

| member | source | states |
|---|---|---|
| TokenProtocol.OneUnitPerFamily | src/auth/services/token.service.ts:109-136 | In every interleaving, a family's live rows plus its exchanges in flight number at most one, and no two calls ever claim the same token, whether they returned, failed or stopped for good after their claim. |
| TokenSteps.ClaimsAreRemembered | src/auth/services/token.service.ts:119-124 | A call counts as having claimed its token exactly from the conditional UPDATE that affected the row on, and for good, whatever becomes of it. |
| TokenProtocol.ExchangeExtendsTheChain | src/auth/services/token.service.ts:168-188 | In every interleaving a family is a linear chain: only a committing mint lengthens it, by one token, and only after the token at its end. |
| TokenProtocol.RunKeepsInv | src/auth/services/token.service.ts:66-248 | Every run keeps the protocol invariant: only the newest token of a family can be live or in the middle of an exchange, and a claimed token is never live again. |
| TokenBreach.BreachIsFinal | src/auth/services/token.service.ts:224-257 | In every run, with `revokeFamily` as two UPDATEs and with sweeps: once a family holds a revoked row stamped as reused, no rotation of it ever commits, until a sweep comes more than seven days after that row has expired. |
| TokenBreach.ReuseSealsTheFamily | src/auth/services/token.service.ts:93-101 | In every run, with sweeps: once a call that found a reuse (replay, lost race or failed breach check) has returned, no token of the family is exchanged again, until a sweep comes more than seven days after the presented token has expired. |
| TokenBreach.NobodyKeepsAForkedSession | src/auth/services/token.service.ts:148-162 | In every run, with sweeps: when two rotations of one token both tried to claim it and are over, no token of the family is exchanged again, until a sweep comes that late; unless the one that lost the race stopped for good before it had revoked the family. |
| TokenBreach.SweepsTakeTime | src/auth/services/token.service.ts:250-259 | No sweep comes that late while the clock has not passed the same seven days. |
| TokenClean.StepStaysCleanExactly | src/auth/services/token.service.ts:239-248 | From a state in which a family with a stamped row, or with a reuse revoke that is or has stopped between its two UPDATEs, has no live row, a step keeps that so if and only if it does not commit a mint into a family for which some call is, or has stopped for good, between those two UPDATEs. |
| TokenClean.BreachLeavesNothingLive | src/auth/services/token.service.ts:224-248 | In every interleaving without such a mint, no breached family ever has a live row; and so in every interleaving, were `revokeFamily` one step. |
| TokenLifetime.OverIsFinal | src/auth/services/token.service.ts:66-222 | A family with no live row and no exchange in flight stays so in every later run, with or without sweeps, and its chain never grows. |
| TokenLifetime.LifeNeedsAMint | src/auth/services/token.service.ts:168-188 | In every run, a family without a live row gets one again only if its chain has grown meanwhile, that is through a committing mint. |
| TokenLifetime.ExchangedAgainExactly | src/auth/services/token.service.ts:66-275 | In every reachable state, with sweeps, crashes and reinstatements to come, and stamped as reused or not: some later run exchanges a token of a family if and only if it has an unexpired live row, an exchange in flight, or a call past the expiry check on a live row. |
| TokenLifetime.SpentIsFinal | src/auth/services/token.service.ts:66-275 | A family with none of the three keeps none in every later run, and its chain never grows. |
| TokenClean.MintCommitsExactly | src/auth/services/token.service.ts:168-188 | A mint commits, and its token is live, if and only if no row of its family is stamped when it runs. |
| TokenSuspension.StepKeepsSuspensionExactly | src/drivers/drivers.service.ts:349-471 | A saved suspension of a driver, or block of a user, survives a step if and only if the step is neither a reinstatement nor the save of a row that was read while the account was in order. |
| TokenSuspension.SuspensionHoldsExactly | src/drivers/drivers.service.ts:451-471 | From any state, a saved suspension of a driver, or block of a user, outlasts every later run without a reinstatement if and only if no call holds a copy of the account's row that was read while the account was in order. |
| TokenSuspension.StaleSaveUndoesASuspension | src/drivers/drivers.service.ts:302-350 | A concrete run in which a driver update that read the row before a suspension saves it afterwards, and the driver is active again. |
| TokenSuspension.SuspensionStopsMints | src/drivers/drivers.service.ts:458-471 | From the save of a suspension, or of a block of a user, until a step that undoes it, rotations mint at most one token for the account per call already past the resolve step; none when there is no such call. |
| TokenSuspension.SuspendedResolveEndsTheFamily | src/auth/auth.service.ts:41-51 | A rotation that resolves a suspended driver, a blocked user or a missing account leaves its family with no live row and no exchange in flight, in that step and in every later run. |
| TokenSuspension.SavedAtOnceIsUnchanged | src/drivers/drivers.service.ts:302-350 | A driver or user row that is read and saved with nothing in between is saved as it was, and an account in order can be read. |
| TokenRoles.ResolvesExactly | src/auth/auth.service.ts:41-51 | The resolve step passes exactly the accounts in order, each as itself; a user goes on as an administrator if and only if the users table says so at that step, whatever role the presented token has. |
| TokenRoles.MintWritesTheSession | src/auth/services/token.service.ts:284-312 | What a committing mint adds is one live row of the same family for the resolved account and role, good for thirty days of 86 400 000 ms; no other row changes. |
| TokenRoles.OnlyMintsCommit | src/auth/services/token.service.ts:168-196 | A rotation returns with a session only through a mint that adds its token: a failed mint transaction, a revoke or a stop never counts as one. |
| TokenRoles.StepKeepsDemotionExactly | src/auth/auth.service.ts:49-51 | A saved demotion of an administrator survives a step if and only if the step does not save the row as an administrator's. |
| TokenRoles.DemotionStopsAdminMints | src/auth/auth.service.ts:49-51 | From the save of a demotion until a save that undoes it, rotations mint at most one administrator's token for the user per call already past the resolve step; none when there is no such call. |
| TokenRoles.WritesTakeEffect | src/drivers/drivers.service.ts:458-463 | After an administrator's write an account is turned away, or is an administrator's, exactly as written. |
| TokenRoles.SuspensionEndsTheSessions | src/drivers/drivers.service.ts:463-471 | After any run, once a suspension is saved and the account's tokens are revoked, then until it is undone or the account signs in, it has at most one live token per call that was already past the resolve step; none when there is no such call. |
| TokenRoles.SessionsNeverChangeHands | src/auth/services/token.service.ts:66-196 | In every interleaving, all tokens of a family, all copies that calls hold of them, and all mints under way are for one and the same driver, or row of the users table. |
| TokenSuspension.BreachLeavesALiveRow | src/auth/services/token.service.ts:239-248 | A concrete run after which a family is stamped as reused and still has a live row: the claim of `src/auth/services/token.service.ts:157-158` fails between the two UPDATEs. |
| TokenSuspension.StoppedLoserSparesTheSession | src/auth/services/token.service.ts:129-136 | A concrete run in which the loser of a race for a token stops before its revoke: the winner's new token is live, and no row is stamped. |
| TokenSuspension.SweepForgetsABreach | src/auth/services/token.service.ts:258-275 | A concrete run in which the sweep deletes the only revoked stamped row and the surviving live row is exchanged afterwards. |
| TokenAtomic.AloneIsAtomic | src/auth/services/token.service.ts:66-196 | Run with nothing in between, the stepwise rotation leaves the same table as the whole call and commits exactly when the whole call issues a session. |
| TokenAtomic.SignOutIsAtomic | src/auth/services/token.service.ts:205-211 | Run with nothing in between, the stepwise sign-out leaves the same table as the whole call. |
| TokenServices.TokenService.Rotate | src/auth/services/token.service.ts:66-196 | The method updates the table as the specification says; on a healthy table it succeeds exactly for an unexpired live token whose subject is still there, and keeps the table healthy. |
| TokenServices.TokenService.IssueSession | src/auth/services/token.service.ts:51-56 | A sign-in adds one live row in the new family, good for thirty days, and changes no other. |
| TokenServices.TokenService.RevokeByToken | src/auth/services/token.service.ts:205-211 | Signing out revokes the whole family of a live token, and is silent about an unknown or revoked one. |
| TokenServices.TokenService.RevokeAllForSubject | src/auth/services/token.service.ts:214-222 | Afterwards exactly the tokens of other subjects that were live are live. |
| TokenServices.TokenService.PruneExpired | src/auth/services/token.service.ts:258-275 | A row stays exactly if it expired at most seven days ago, revoked or not; the rows that stay are unchanged; and the result is the number of rows that are gone. |
| Sessions.RotateRefines | src/auth/services/token.service.ts:66-196 | A whole rotation refines the machine Alive(current) or Dead: the current token moves the family on, or to Dead when the subject is gone; a replayed rotated token gives Dead; anything else changes nothing; other families never change; a session is issued in the first case only. |
| Sessions.LogoutRefines | src/auth/services/token.service.ts:205-211 | Signing out with the current token gives Dead and leaves no breach evidence; with any other token it changes nothing. |
| Sessions.RevokeSubjectRefines | src/auth/services/token.service.ts:214-222 | Revoking an account kills exactly the families whose current token is theirs. |
| Sessions.PruneRefines | src/auth/services/token.service.ts:258-275 | The sweep ends a family only if its current token expired more than seven days ago. |
| Sessions.SignInRefines | src/auth/services/token.service.ts:51-56 | A sign-in starts a family Alive and leaves every other in its state. |
| Sessions.EveryRunIsSound | src/auth/services/token.service.ts:45-275 | After any whole calls in any order, a family has at most one live token, and none if it has breach evidence. |
| Sessions.DeadIsFinal | src/auth/services/token.service.ts:66-275 | A family that is Dead stays Dead in every run of whole calls. |
| Sessions.ReplayEndsTheSession | src/auth/services/token.service.ts:81-103 | Once a token has been exchanged, presenting it again at any later time issues nothing, and leaves its family Dead whenever its row still exists, which it does until seven days after its expiry. |
| Sessions.RetiredTokensAreInert | src/auth/services/token.service.ts:88-93 | A token revoked for any reason other than rotation changes nothing in the table when presented, then or at any later time. |
| Sessions.DeliberateEndsAreNoBreach | src/auth/services/token.service.ts:88-102 | In every run, a client that retries with a token it signed out of, or whose account was revoked, is refused and nothing is recorded as a breach. |
| Sessions.RevokedForGood | src/auth/services/token.service.ts:250-257 | In every run a revoked row stays revoked, keeps its reason unless it is stamped as reused, and stays readable until its grace period is over. |
| Sessions.PruneChangesNoAnswer | src/auth/services/token.service.ts:261-270 | In every reachable table, sweeping changes no answer `rotate` gives for any token, then or at any later time. |
| TokenCalls.ReplayWrites | src/auth/services/token.service.ts:88-103 | A rotated token presented again: the live rows of its family are revoked now, every row of it is stamped as reused, no other row changes, and nothing is issued. |
| TokenCalls.RefusalWritesNothing | src/auth/services/token.service.ts:81-107 | An unknown, expired or otherwise revoked token is refused and writes nothing. |
| TokenCalls.ExchangeWrites | src/auth/services/token.service.ts:109-196 | The current token is revoked now as rotated; if the account is in order, one live row for it, in the same family and good for thirty days, is all that is added. |
| TokenCalls.SignOutWrites | src/auth/services/token.service.ts:205-211 | Signing out with a live token revokes now, as a logout, exactly the live rows of its family. |
| TokenCalls.RevokeSubjectWrites | src/auth/services/token.service.ts:214-222 | Revoking an account revokes now, for that reason, exactly its live rows. |
| RefreshTokens.ReuseRevokeKills | src/auth/services/token.service.ts:224-248 | A reuse revoke keeps "a stamped family has no live row" true of every family. |
| Money.KoboRoundTrip | src/common/utils/money.util.ts:32-41 | Every whole number of kobo survives conversion to naira and back. |
| Money.SplitConserves | src/common/utils/money.util.ts:54-78 | The shares sum to the fare; the driver is at most 95% and the rider at most 1%, each short by less than a kobo; no share is negative exactly when the fare is not. |
| Money.PlatformRemainder | src/common/utils/money.util.ts:57-77 | The platform keeps its 4% plus at most 1.76 kobo, reached exactly at fares of 81 mod 100. |
| Money.PlatformNeverDrifts | src/common/utils/money.util.ts:57-77 | Over any n fares the platform's total lies within 1.76 n kobo above 4% of gross, reached exactly when every fare is 81 mod 100. |
| Money.FareIsWholeKobo | src/rides/rides.service.ts:579-613 | A quote for a distance in hundredths of a kilometre is the documented price (500 + 100 per km, 250 + 50, 300 + 70, 1000 + 200) exact to the kobo, with nothing rounded away. |
| Money.SharedIsHalfPrivate | src/rides/rides.service.ts:582-586 | A shared seat costs exactly half a private ride of the same length. |
| Money.RoundingRespectsAllowance | src/wallet/wallet.service.ts:163-173 | Rounding a request to kobo never lifts it past a whole-kobo allowance it was within. |
| Money.NegationRounds | src/wallet/wallet.service.ts:356-358 | Taking back a negated amount undoes adding it, except that exactly at half kobos one kobo stays behind. |
| Rides.NewRideFareIsPositive | src/rides/rides.service.ts:156-165 | Every new ride is quoted at least the cheapest base fare. |
| Ledger.WriteEntries | src/ledger/ledger.service.ts:54-74 | The batch is appended in order, keeping the unique index; or nothing is written, exactly when some row clashes with an earlier one. |
| Books.SettleFareConserves | src/rides/rides.service.ts:420-480 | The completion transaction keeps every wallet, cashback and ride count equal to its ledger sum. |
| Books.ReserveFuelConserves | src/wallet/wallet.service.ts:145-192 | Reserving a fuel advance keeps every wallet, cashback and ride count equal to its ledger sum. |
| Books.DebitPayoutConserves | src/wallet/wallet.service.ts:250-290 | Debiting a payout keeps every wallet, cashback and ride count equal to its ledger sum. |
| Books.ConfirmConserves | src/wallet/wallet.service.ts:311-320 | Settling an entry, or leaving it pending, moves no balance and keeps every cache true. |
| Books.ReversalConservesExactly | src/wallet/wallet.service.ts:343-369 | Reversing an entry keeps every cache true if and only if the driver is gone or the reversal gives back, to the kobo, what the entry moved. |
| WalletLaws.StepConservesExactly | src/ledger/entities/ledger-entry.entity.ts:36-49 | A step of the platform keeps balances equal to ledger sums if and only if it is not the save of a driver or rider row whose money columns moved since it was read, and not the refusal of a half-kobo advance. |
| WalletLaws.BalancesAreCaches | src/ledger/entities/ledger-entry.entity.ts:36-49 | In every interleaving without those steps, with refusals and calls stopping halfway: wallet, cashback and completed-ride count equal what the ledger sums to. |
| WalletLaws.PayoutIsDebitedExactly | src/wallet/wallet.service.ts:249-290 | A payout request is debited if and only if it is for at least 500 naira and the wallet holds it; then exactly its kobo, one pending entry written now and one waiting request; otherwise it changes nothing. |
| WalletLaws.ProfileSavedAtOnce | src/drivers/drivers.service.ts:302-350 | A driver row read and saved with nothing in between leaves the platform as it was. |
| WalletLaws.RiderSavedAtOnce | src/auth/privy/privy-auth.service.ts:140-208 | A rider row read and saved with nothing in between leaves the platform as it was. |
| FuelCap.FuelIsGrantedExactly | src/wallet/wallet.service.ts:144-192 | An advance is granted if and only if it is for at least 100 naira and, with the driver's standing advances written since 00:00:00.000 of the same 86 400 000 ms, stays within the limit; then exactly its kobo, one pending entry written now and one waiting request; otherwise it changes nothing. |
| FuelCap.FuelStaysCapped | src/wallet/wallet.service.ts:69-80 | In every run, for every driver and every k, the standing advances written from 86 400 000 k up to 86 400 000 (k + 1) sum to at most the daily limit, with no lock at all. |
| FuelCap.AllowanceIsBack | src/wallet/wallet.service.ts:69-80 | After any run, once the clock is past the end of a day, a request is granted if and only if it is for at least 100 naira and at most the whole limit. |
| FuelCap.AllowanceIsShown | src/wallet/wallet.service.ts:108-126 | The allowance shown is the limit less the driver's standing advances of the day, and never negative. |
| FuelCap.FuelSupportExactly | src/wallet/wallet.service.ts:131-231 | What a whole fuel call answers, for each case of the driver, the day's allowance and the bank; refused outright it changes nothing, and approved it leaves its kobo in the wallet and one COMPLETED entry written now. |
| WalletFloor.StepFloorExactly | src/wallet/wallet.service.ts:201-206 | A step keeps the balance, less all that refusing the advances in flight would take, at or above minus the limit, if and only if it is not a payout or profile save that leaves less behind than that. |
| WalletFloor.OneDayIsCovered | src/wallet/wallet.service.ts:258-266 | While the driver's advances in flight are of one day, every payout leaves enough behind: the daily cap bounds what the bank can still decline. |
| WalletFloor.OneCallIsOneDay | src/wallet/wallet.service.ts:131-139 | With at most one advance of the driver in flight, as under an exclusive fuel lock, the advances in flight are of one day. |
| WalletFloor.WalletHasAFloor | src/wallet/wallet.service.ts:131-231 | In every run whose payouts and profile saves leave enough behind, no wallet falls below minus the daily limit, across payouts that spend advances the bank later declines. |
| WalletFloor.PrudentRunsAreCovered | src/wallet/wallet.service.ts:131-139 | They all do in every run without a stale profile save whose payouts happen while the driver's advances in flight are of one day. |
| WalletFloor.BelowFloorCanSink | src/wallet/wallet.service.ts:201-206 | From any state below that floor, refusals of the advances in flight alone take the wallet below minus the limit. |
| WalletFloor.StepIsSafeExactly | src/wallet/wallet.service.ts:201-206 | After any run of payouts and saves that leave enough behind, a step leaves the wallet safe (no later run of such steps takes it below minus the limit) if and only if it leaves enough behind too. |
| WalletWitnesses.HalfKoboStaysBehind | src/wallet/wallet.service.ts:201-206 | A concrete refused advance after which the wallet holds a kobo that no ledger entry explains. |
| WalletWitnesses.StaleProfileErasesMoney | src/drivers/drivers.service.ts:302-353 | A concrete run in which a profile update erases an advance from the wallet while the ledger keeps it. |
| WalletWitnesses.StaleSignInErasesCashback | src/auth/privy/privy-auth.service.ts:140-208 | A concrete run from empty balances in which a rider's sign-in spans a completion and erases the cashback it paid, while the ledger keeps it. |
| WalletWitnesses.FloorNeedsOneDay | src/wallet/wallet.service.ts:131-231 | A concrete run with advances of two days in flight in which the wallet sinks to minus twice the limit. |
| Wallet.DeclinedFuelRestores | src/wallet/wallet.service.ts:194-211 | A declined advance puts every balance back and leaves one FAILED entry, except that exactly a half-kobo amount leaves one kobo. |
| Wallet.FailedPayoutRestores | src/wallet/wallet.service.ts:292-309 | A failed payout puts every balance back to the kobo and leaves one FAILED entry. |
| Wallet.PayoutNeverOverdraws | src/wallet/wallet.service.ts:258-266 | A payout is refused for its amount exactly when that exceeds the balance; a successful one takes exactly its rounded amount and never takes the wallet below zero. |
| Wallet.RequestPayoutExactly | src/wallet/wallet.service.ts:236-334 | What a whole payout call answers, for each case of the driver, the balance and the gateway; refused outright it changes nothing, and otherwise it takes its kobo and leaves one entry written now, COMPLETED or still PENDING as the gateway said. |
| Wallet.AllowanceIsEnforced | src/wallet/wallet.service.ts:108-126 | A request is refused for the limit exactly when it exceeds the allowance shown, and an approved one comes off that allowance in full. |
| Settlement.EveryFareSettlesOnce | src/rides/rides.service.ts:374-487 | In every interleaving, with locks expiring at any step, stale rows saved and calls stopping anywhere: no ride settles twice, each has no ledger entry or exactly three summing to its fare, the gross equals the sum of settled fares, and the platform's total stays within 1.76 kobo a ride of 4% of it. |
| Settlement.FareTotals | src/stats/stats.service.ts:286 | Settling one fare raises the reported platform + driver + rider total by exactly that fare. |
| Settlement.SettledRideCannotSettle | src/ledger/entities/ledger-entry.entity.ts:52-58 | Whatever the ride row says, the unique index rolls back a second settlement of a ride. |
| PlatformFares.EveryRideKeepsItsQuote | src/rides/rides.service.ts:156-167 | In every interleaving, stale saves included, a ride keeps the rider and category it was requested with, and the price list's fare for them and its distance. |
| PlatformFares.EverySettledRideIsPaidItsPrice | src/rides/rides.service.ts:420-480 | In every interleaving, the ledger holds, for each settled ride, 95%, the rest and 1% of the price list's fare for the distance and category it was requested with, the 1% to the rider who requested it. |
| PlatformBase.StepKeepsRides | src/rides/rides.service.ts:349-372 | No step of any call, stale or not, turns a ride back to REQUESTED or changes its rider, category or quote. |
| RideEnds.StepUndoesExactly | src/rides/rides.service.ts:508-516 | A COMPLETED or CANCELLED ride leaves its status at a step if and only if the step saves a row of it that was read earlier and carries another status. |
| RideEnds.EndIsFinalExactly | src/rides/rides.service.ts:349-516 | After any run, a ride that is over keeps its status in every later run if and only if no call in flight read its row under another status and has yet to save it: an accept past its read, or an accept, arrival, start or cancel about to save. |
| RideEnds.SettledAndCancelled | src/rides/rides.service.ts:508-516 | A concrete run from empty balances, without any expiry, after which a ride's fare is settled and its row is CANCELLED. |
| AcceptOnce.StoppedForGood | src/rides/rides.service.ts:186-287 | A call that stops between two of its steps takes no further part in any later run. |
| AcceptOnce.AcceptedAtMostOnce | src/rides/rides.service.ts:192-206 | At most one accept of each ride is ever saved, in every interleaving with unlocked cancels, arrivals and starts, and with locks expiring at any step except while a call is at work on a ride that is still REQUESTED or yet to be created. |
| AcceptTwice.ExpiryIsSafeExactly | src/rides/rides.service.ts:186-193 | After any such run, the expiry of a ride's lock is safe (no later run without a harmful expiry accepts a ride twice) if and only if no call is at work on that ride or its row is no longer REQUESTED. |
| AcceptTwice.ExpiryLetsTwoAccept | src/rides/rides.service.ts:192-193 | A concrete run from an empty platform in which a lock expires before its holder saves and two drivers both accept the ride. |
| LoadRaces.StepKeepsLoadExactly | src/rides/rides.service.ts:229-265 | With the load check and the save as separate steps, a step keeps a driver's load within the pooling limits if and only if it does not save an active row that the load checks, made at that moment, would refuse. |
| LoadRaces.LoadStaysWithinLimits | src/rides/rides.service.ts:229-265 | In every interleaving without such a save, each driver has one exclusive ride or at most four, all SHARED. |
| LoadRaces.OverloadNeedsAnotherRide | src/rides/rides.service.ts:229-265 | An accept that passed the load check overloads its driver only if, between the check and the save, another ride became active under that driver. |
| LoadRaces.TwoExclusivesAtOnce | src/rides/rides.service.ts:237-248 | A concrete run from an empty platform, without any expiry, in which one driver accepts two exclusive rides at once and ends with both. |
| PlatformAtomic.AcceptIsAtomic | src/rides/rides.service.ts:186-287 | Run with nothing in between, the stepwise accept leaves the rides and the locks as the whole call does, and saves an accept exactly when the whole call succeeds. |
| PlatformAtomic.CompleteIsAtomic | src/rides/rides.service.ts:390-506 | Run with nothing in between, the stepwise completion leaves the rides, balances and ledger of the whole call. |
| PlatformAtomic.ArrivalIsAtomic | src/rides/rides.service.ts:349-359 | Reading, checking and saving an arrival with nothing in between is the whole arrival call. |
| PlatformAtomic.StartIsAtomic | src/rides/rides.service.ts:361-372 | Reading, checking and saving a start with nothing in between is the whole start call. |
| PlatformAtomic.CancelIsAtomic | src/rides/rides.service.ts:508-516 | Reading, checking and saving a cancellation with nothing in between changes the rides as the whole cancel call does. |
| PlatformAtomic.FuelIsAtomic | src/wallet/wallet.service.ts:144-218 | Phase 1 followed at once by the bank's answer leaves the books of the whole fuel call and no request in flight. |
| PlatformAtomic.PayoutIsAtomic | src/wallet/wallet.service.ts:249-320 | Phase 1 followed at once by the gateway's answer leaves the books of the whole payout call and no request in flight. |
| Fleet.AllowedCategories | src/rides/utils/category-matching.util.ts:73-81 | Returns exactly the categories that some owned vehicle type serves. |
| Fleet.OffersMatchAcceptance | src/rides/utils/category-matching.util.ts:52-81 | A category is offered exactly when one of the owned vehicle types passes the check an accept makes of the vehicle. |
| Fleet.WhatIsOffered | src/rides/utils/category-matching.util.ts:24-29 | For any set of owned vehicle types, in table order: a keke adds PRIVATE and SHARED, a bike OKADA, a car CAR, a courier vehicle nothing. |
| RideCalls.CreateExactly | src/rides/rides.service.ts:150-172 | A ride is created for exactly the riders who are there and not blocked: one new row, REQUESTED now, without a driver, at the price list's fare for its distance and category; nothing else changes, and each refusal says why. |
| RideCalls.AcceptExactly | src/rides/rides.service.ts:195-275 | An accept succeeds if and only if the ride is REQUESTED, the driver active and online, the vehicle theirs, active and of a type offered the category, and the load within the pooling limits with the ride added; it then writes that driver, vehicle, status and time, and the pointer, and nothing else. |
| RideCalls.AcceptRefusals | src/rides/rides.service.ts:195-257 | Exactly when each refusal of an accept is given. |
| RideCalls.OffersAreAcceptable | src/rides/rides.service.ts:328-347 | The rides a driver on duty is shown are exactly those they could accept with some vehicle of theirs, but for the pooling limits. |
| RideCalls.ArriveExactly | src/rides/rides.service.ts:349-359 | An arrival succeeds exactly for the assigned driver of an ACCEPTED ride, and changes its status only. |
| RideCalls.StartExactly | src/rides/rides.service.ts:361-372 | A start succeeds exactly for the assigned driver of an ARRIVED ride, and writes the status and the start time only. |
| RideCalls.CompleteExactly | src/rides/rides.service.ts:390-492 | A completion succeeds if and only if the caller is the assigned driver and the ride is completed already, or in progress with both parties there and no fare entry of it in the ledger; the first pays 95%, the rest and 1% of the quote with three entries written now, counts the ride and drops the pointer; a repeated one changes nothing. |
| RideCalls.CompleteRefusals | src/rides/rides.service.ts:400-436 | Exactly when each refusal of a completion is given. |
| RideCalls.InProgressIsUnpaid | src/ledger/entities/ledger-entry.entity.ts:52-58 | In every run, no ride in progress has a fare entry, so the index never refuses its completion. |
| RideCalls.CompletionIsRepeatable | src/rides/rides.service.ts:411-414 | A completion that succeeded succeeds again after any later calls, and then changes nothing. |
| RideCalls.CancelExactly | src/rides/rides.service.ts:508-526 | Who may cancel what: the rider until the ride is under way, its driver with a reason, an administrator always, nobody once it is completed; what it writes, and each refusal. |
| RideCalls.OnlineExactly | src/drivers/drivers.service.ts:384-400 | Going online succeeds exactly for an approved and active driver, going offline for anyone; only that flag changes. |
| RideCalls.VerificationExactly | src/drivers/drivers.service.ts:412-433 | The status is written for any known driver, who stays online only if it is APPROVED and they were. |
| RideCalls.ActiveExactly | src/drivers/drivers.service.ts:451-463 | The flag is written for any known driver, who stays online only if it is set and they were. |
| RideCalls.RegistrationExactly | src/drivers/drivers.service.ts:180-210 | A new driver starts offline and active, with nothing earned. |
| RideFares.EveryRideKeepsItsQuote | src/rides/rides.service.ts:156-167 | In every run of whole calls, a ride has the rider, the category and the price of the call that created it. |
| RideFares.EveryRideIsPaidItsPrice | src/rides/rides.service.ts:416-480 | In every run, a completed ride has been paid once, to its driver, the platform and the rider who ordered it: 95%, the rest and 1% of the price list's fare for the distance and category it was ordered with; no other ride has been paid anything. |
| RideFares.BreakdownIsTheQuote | src/rides/rides.service.ts:528-568 | At any time in any run, both parties see the quote and its 95%, its rest and its 1%: a projection before completion, the ledger after it. |
| DispatchLaws.EveryRunKeepsInv | src/rides/rides.service.ts:186-526 | In every reachable state: each driver has one exclusive ride or at most four, all SHARED; a pointer names a ride that driver is serving; an online driver is approved and active; completed rides were requested, accepted, started and completed in that order. |
| DispatchLaws.LoadErrorIsExact | src/rides/rides.service.ts:229-257 | For a driver within the pooling limits, the load checks pass for one more ride if and only if the driver is still within them with it. |
| DispatchLaws.LoadChecksAreExact | src/rides/rides.service.ts:202-257 | With the ride, the driver and the vehicle in order, an accept succeeds if and only if the driver's load is still within the pooling limits afterwards. |
| DispatchLaws.OnlyApprovedDriversAccept | src/rides/rides.service.ts:208-211 | Whoever accepts a ride is approved, although the verification status is never read there. |
| DispatchLaws.OverIsFinal | src/rides/rides.service.ts:349-526 | In any run of whole calls, a completed ride's row never changes again, and a cancelled one's only in its cancellation reason. |
| DispatchLaws.OverChangesExactly | src/rides/rides.service.ts:508-516 | A call changes the row of a ride that is over if and only if it is an allowed repeated cancellation with another reason. |
| DispatchLaws.CompletionFreesTheDriverExactly | src/rides/rides.service.ts:489-492 | Completing drops the driver's pointer and takes that one ride off their load; they are free exactly when it was their only active ride. |
| DispatchLaws.ProjectionIsPaid | src/rides/rides.service.ts:528-568 | In every reachable state, the breakdown projected before completion equals, to the kobo, what the ledger shows after it. |
| Services.RidesService.CreateRide | src/rides/rides.service.ts:150-172 | Adds exactly one REQUESTED ride, or changes nothing for an unknown or blocked rider. |
| Services.RidesService.AcceptRide | src/rides/rides.service.ts:186-287 | Refused and without effect while the ride is locked; otherwise every check in order, the row and the pointer as specified, and the lock released on every path. |
| Services.RidesService.MarkArrived | src/rides/rides.service.ts:349-359 | Moves an accepted ride of that driver to ARRIVED, or changes nothing and says why. |
| Services.RidesService.StartRide | src/rides/rides.service.ts:361-372 | Moves an arrived ride of that driver to IN_PROGRESS with its start time, or changes nothing and says why. |
| Services.RidesService.CompleteRide | src/rides/rides.service.ts:390-506 | Row, wallet, cashback, ledger and pointer all change together or not at all; repeating a completion changes nothing; the lock is released on every path. |
| Services.RidesService.CancelRide | src/rides/rides.service.ts:508-526 | Cancels for whoever is allowed to, with the reason given or the default one, and drops the assigned driver's pointer; or changes nothing and says why. |
| Services.DriversService.UpdateOnlineStatus | src/drivers/drivers.service.ts:384-400 | Only an approved and active driver goes online; anyone may go offline. |
| Services.DriversService.UpdateVerificationStatus | src/drivers/drivers.service.ts:412-433 | Losing approval takes the driver offline and revokes exactly their driver sessions. |
| Services.DriversService.UpdateActiveStatus | src/drivers/drivers.service.ts:451-471 | Suspension takes the driver offline and revokes exactly their driver sessions; reinstatement touches no session. |
| Services.WalletService.RequestFuelSupport | src/wallet/wallet.service.ts:131-231 | Reserve, then settle or reverse, as specified; refused without effect while another request holds the lock; the lock released on every path. |
| Services.WalletService.RequestPayout | src/wallet/wallet.service.ts:236-334 | Debit, then settle or give back, as specified; refused without effect while another payout holds the lock; the lock released on every path. |
| StartOfDay.NominalMidnightIsToday | src/stats/stats.service.ts:695-714 | The midnight solved for is the last multiple of 86 400 000 ms the zone's clock has shown. |
| StartOfDay.OffsetIsFloored | src/stats/stats.service.ts:648-675 | The offset read is the zone's, short by less than a second, and makes a whole second of the clock. |
| StartOfDay.SolveIsExplicit | src/stats/stats.service.ts:714-721 | Which of the two offsets the second pass ends up with, in each case of where the change falls. |
| StartOfDay.SolvesForMidnight | src/stats/stats.service.ts:676-721 | The result is an instant whose local time is midnight of today's date if and only if such an instant exists, for every sign and size of offset. |
| StartOfDay.SkippedMidnight | src/stats/stats.service.ts:676-721 | When local midnight does not exist, the result misses it by exactly the jump: into the previous day west of UTC, past midnight otherwise. |
| StartOfDay.NeverInTheFutureExactly | src/stats/stats.service.ts:695-721 | The exact days and instants for which the result lies after now. |
| StartOfDay.StartOfDayIsRecent | src/stats/stats.service.ts:695-721 | When local midnight is unique, the result is not after now and less than 24 hours back plus whatever the clock fell back. |
| StartOfDay.SkippedMidnightWitness | src/stats/stats.service.ts:676-688 | A concrete zone and day for which the start of day is 23:00 of the day before. |

## Left out

- Signing and verifying access tokens, SHA-256, bcrypt, Privy's tokens and account linking, and OTP: a token is a fresh number, its row and its hash have the same key; of a Privy sign-in the model has the read and the save of the account row, and the session it issues.
- User agent, IP address and response shapes of the session calls, and the warnings they log.
- Controllers, DTO validation beyond the minimum amounts, events, websocket fan-out, e-mail and webhook queues.
- Database isolation below one statement or one transaction, and deadlocks between transactions.
- The lifetimes of Redis keys: a lock or pointer may expire at any step.
- The 30-second idempotency key of `createRide`, and its search queries.
- Great-circle distance, driver location search, geocoding and the ride-request parser: a distance is a number of hundredths of a kilometre.
- IEEE rounding: products and quotients are exact.
- Deleting drivers, riders or rides; registering drivers while the platform machine runs (it starts from any set of drivers and riders with empty balances).
- A null `estimatedFare`, which the source reads as zero; every ride created here has a quote.
- The active-ride pointer, and the driver and vehicle checks of an accept, inside the platform machine, where whether those checks passed is a parameter; the whole-call model has both.
- A request whose transaction straddles midnight: an entry is written at the instant its allowance was counted. The server's clock reads UTC, so its days are multiples of 86 400 000 ms.
- The order in which a driver is shown the available rides.
- The two wallet locks in the platform machine: any number of requests of one driver may run at once there, which only makes its laws stronger.
- Calendar formatting inside `offsetAt`, and the fallback for an invalid time zone: a zone is a function from instants to offsets.
- The other statistics, ratings, emergency incidents, pagination, configuration and migrations: queries and easy members.
- WalletLaws.BalancesAreCaches: holds for runs without a stale save of a driver or rider row and without the refusal of a half-kobo advance; StepConservesExactly shows each of those steps breaks it.
- WalletFloor.WalletHasAFloor: holds for runs in which each payout and profile save leaves enough behind; StepIsSafeExactly shows that each other one lets the wallet sink.
- A row of the users table with the driver role: a refreshed rider session is for a user or an administrator.
- AcceptOnce.AcceptedAtMostOnce: holds for runs without a harmful expiry; ExpiryIsSafeExactly shows that each harmful one lets a later run accept a ride twice.
- TokenBreach.NobodyKeepsAForkedSession: says nothing when the rotation that lost the race stopped before it had revoked the family; StoppedLoserSparesTheSession shows the winner keeps the session then, and ExchangedAgainExactly says for how long.
- TokenSuspension.SuspensionStopsMints: holds until a step that undoes the suspension; StepKeepsSuspensionExactly says which those are.
- TokenBreach.BreachIsFinal: says nothing about a family after a sweep that comes more than seven days after the stamped row expired; ExchangedAgainExactly does.
- LoadRaces.LoadStaysWithinLimits: holds for runs without an overloading save; StepKeepsLoadExactly shows that each such save breaks the limits.
