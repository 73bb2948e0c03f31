/** Suspending an account, and runs in which a suspension or a detected breach does not hold. */
module TokenSuspension {
  import opened Prelude
  import opened RefreshTokens
  import opened TokenProtocol
  import opened TokenSteps
  import opened TokenLifetime

  /** The account is turned away: a driver inactive or gone, a user blocked or gone. */
  predicate Suspended(s: State, subject: Subject) {
    if subject.role == Driver then subject.id !in s.accounts.drivers || !s.accounts.drivers[subject.id]
    else subject.id !in s.accounts.users || s.accounts.users[subject.id].blocked
  }

  /** An administrator's write that puts the account in order. */
  predicate Reinstatement(step: Step, subject: Subject) {
    match step
    case SetDriver(id, active) => subject == Subject(id, Driver) && active == Some(true)
    case SetUser(id, account) => subject.role != Driver && subject.id == id && account.Some? && !account.value.blocked
    case _ => false
  }

  /** The row was read while the account was in order. */
  predicate ShowsInOrder(copy: RowCopy, subject: Subject) {
    match copy
    case DriverCopy(id, active) => subject == Subject(id, Driver) && active
    case UserCopy(id, account) => subject.role != Driver && subject.id == id && !account.blocked
  }

  /** The step saves the account's row as active or unblocked: on purpose, or as an earlier read showed it. */
  predicate Reinstates(s: State, step: Step, subject: Subject) {
    || Reinstatement(step, subject)
    || (&& step.SaveCopy? && step.c in s.accounts.copies
        && ShowsInOrder(s.accounts.copies[step.c], subject))
  }

  lemma AdvanceSparesAccounts(s: State, c: CallId)
    requires c in s.calls
    ensures Advanced(s, c).accounts == s.accounts
  {
    match s.calls[c].at
    case Minting(_) =>
    case _ =>
  }

  /**
   * A suspension that is saved survives a step if and only if the step is no
   * reinstatement and no save of a whole row that was read before it.
   */
  lemma StepKeepsSuspensionExactly(s: State, step: Step, subject: Subject)
    requires Suspended(s, subject)
    ensures Suspended(Next(s, step), subject) <==> !Reinstates(s, step, subject)
  {
    if step.Advance? && step.c in s.calls { AdvanceSparesAccounts(s, step.c); }
  }

  predicate NeverReinstated(s: State, steps: seq<Step>, subject: Subject) {
    steps == [] || (&& NeverReinstated(s, steps[..|steps| - 1], subject)
                    && !Reinstates(Run(s, steps[..|steps| - 1]), steps[|steps| - 1], subject))
  }

  lemma {:induction false} StaysSuspended(s: State, steps: seq<Step>, subject: Subject)
    requires Suspended(s, subject) && NeverReinstated(s, steps, subject)
    ensures Suspended(Run(s, steps), subject)
  {
    if steps != [] {
      StaysSuspended(s, steps[..|steps| - 1], subject);
      StepKeepsSuspensionExactly(Run(s, steps[..|steps| - 1]), steps[|steps| - 1], subject);
    }
  }

  /** A whole row saved at once, with nothing in between, is saved as it was. */
  lemma SavedAtOnceIsUnchanged(s: State, c: CallId, id: nat)
    requires c !in s.accounts.copies
    ensures Next(Next(s, LoadDriver(c, id)), SaveCopy(c)) == s && Next(Next(s, LoadUser(c, id)), SaveCopy(c)) == s
    ensures id in s.accounts.drivers ==> c in Next(s, LoadDriver(c, id)).accounts.copies
    ensures id in s.accounts.users && !s.accounts.users[id].blocked ==> c in Next(s, LoadUser(c, id)).accounts.copies
  {
    assert Next(Next(s, LoadDriver(c, id)), SaveCopy(c)).accounts.copies == s.accounts.copies;
    assert Next(Next(s, LoadUser(c, id)), SaveCopy(c)).accounts.copies == s.accounts.copies;
  }

  // ----- how long a suspension lasts -----

  /** No call holds a copy of the account's row from before the suspension. */
  ghost predicate NoneHeld(s: State, subject: Subject) {
    forall c :: c in s.accounts.copies ==> !ShowsInOrder(s.accounts.copies[c], subject)
  }

  predicate NoneReinstates(steps: seq<Step>, subject: Subject) {
    forall i :: 0 <= i < |steps| ==> !Reinstatement(steps[i], subject)
  }

  lemma StepHoldsNone(s: State, step: Step, subject: Subject)
    requires Suspended(s, subject) && NoneHeld(s, subject)
    ensures NoneHeld(Next(s, step), subject)
  {
    if step.Advance? && step.c in s.calls { AdvanceSparesAccounts(s, step.c); }
  }

  lemma {:induction false} StaysSuspendedAndUnheld(s: State, later: seq<Step>, subject: Subject)
    requires Suspended(s, subject) && NoneHeld(s, subject) && NoneReinstates(later, subject)
    ensures Suspended(Run(s, later), subject) && NoneHeld(Run(s, later), subject)
  {
    if later != [] {
      var front, last := later[..|later| - 1], later[|later| - 1];
      StaysSuspendedAndUnheld(s, front, subject);
      StepHoldsNone(Run(s, front), last, subject);
      StepKeepsSuspensionExactly(Run(s, front), last, subject);
    }
  }

  lemma HeldCopyIsSaved(s: State, c: CallId, subject: Subject) returns (later: seq<Step>)
    requires c in s.accounts.copies && ShowsInOrder(s.accounts.copies[c], subject)
    ensures NoneReinstates(later, subject) && !Suspended(Run(s, later), subject)
  {
    later := [] + [SaveCopy(c)];
    Then(s, [], SaveCopy(c));
  }

  /**
   * A saved suspension outlasts every later run without a reinstatement if and
   * only if no call holds a copy of the row that was read before it.
   */
  lemma SuspensionHoldsExactly(s: State, subject: Subject)
    requires Suspended(s, subject)
    ensures (forall later :: NoneReinstates(later, subject) ==> Suspended(Run(s, later), subject))
            <==> NoneHeld(s, subject)
  {
    if NoneHeld(s, subject) {
      forall later | NoneReinstates(later, subject) ensures Suspended(Run(s, later), subject) {
        StaysSuspendedAndUnheld(s, later, subject);
      }
    } else {
      var c :| c in s.accounts.copies && ShowsInOrder(s.accounts.copies[c], subject);
      var later := HeldCopyIsSaved(s, c, subject);
    }
  }

  // ----- what a suspension stops -----

  /** The call has resolved this account and is about to mint for it. */
  predicate AboutToMint(call: Call, subject: Subject) {
    call.at.Minting? && call.row.subject == subject
  }

  function PastResolve(s: State, subject: Subject): set<CallId> {
    set c | c in s.calls && AboutToMint(s.calls[c], subject)
  }

  /** The step commits a token for the account out of a rotation. */
  predicate MintsFor(s: State, step: Step, subject: Subject) {
    && step.Advance? && step.c in s.calls && AboutToMint(s.calls[step.c], subject)
    && Next(s, step).calls[step.c].at == Returned(Committed)
  }

  function TokensMinted(s: State, steps: seq<Step>, subject: Subject): nat {
    if steps == [] then 0
    else
      var front, last := steps[..|steps| - 1], steps[|steps| - 1];
      TokensMinted(s, front, subject) + if MintsFor(Run(s, front), last, subject) then 1 else 0
  }

  lemma SuspendedNeverResolves(s: State, c: CallId, subject: Subject)
    requires c in s.calls && Suspended(s, subject)
    ensures !AboutToMint(Advanced(s, c).calls[c], subject)
  {
    match s.calls[c].at
    case Minting(resolved) => MintMovesOn(s, c, resolved);
    case Claiming =>
    case _ =>
  }

  lemma MintMovesOn(s: State, c: CallId, resolved: Subject)
    requires c in s.calls
    ensures !Mint(s, c, resolved).calls[c].at.Minting?
  {
  }

  /** While the account is suspended, no call passes the resolve step with it. */
  lemma NoNewMinters(s: State, step: Step, subject: Subject, c: CallId)
    requires Suspended(s, subject) && c in PastResolve(Next(s, step), subject)
    ensures c in PastResolve(s, subject) && !(MintsFor(s, step, subject) && step.c == c)
  {
    if c !in s.calls {
      NewCallsOnlyRead(s, step, c);
    } else if !Moves(step, c) {
      OtherCallsStay(s, step, c);
    } else if step.Advance? {
      SuspendedNeverResolves(s, c, subject);
    }
  }

  lemma StepSpendsMinters(s: State, step: Step, subject: Subject)
    requires Suspended(s, subject)
    ensures |PastResolve(Next(s, step), subject)| + (if MintsFor(s, step, subject) then 1 else 0)
            <= |PastResolve(s, subject)|
  {
    var before, after := PastResolve(s, subject), PastResolve(Next(s, step), subject);
    forall c | c in after ensures c in before && !(MintsFor(s, step, subject) && step.c == c) {
      NoNewMinters(s, step, subject, c);
    }
    if MintsFor(s, step, subject) {
      SubsetCardinality(after, before - {step.c});
    } else {
      SubsetCardinality(after, before);
    }
  }

  lemma SubsetCardinality(xs: set<CallId>, ys: set<CallId>)
    requires xs <= ys
    ensures |xs| <= |ys|
  {
    assert ys == xs + (ys - xs);
  }

  /**
   * From the moment a suspension is saved until a save undoes it, rotations
   * mint at most one token for each call already past the resolve step: none
   * at all when calls are atomic.
   */
  lemma {:induction false} SuspensionStopsMints(s: State, steps: seq<Step>, subject: Subject)
    requires Suspended(s, subject) && NeverReinstated(s, steps, subject)
    ensures TokensMinted(s, steps, subject) + |PastResolve(Run(s, steps), subject)| <= |PastResolve(s, subject)|
  {
    if steps != [] {
      var front, last := steps[..|steps| - 1], steps[|steps| - 1];
      SuspensionStopsMints(s, front, subject);
      StaysSuspended(s, front, subject);
      StepSpendsMinters(Run(s, front), last, subject);
    }
  }

  lemma ResolvingFindsNobody(s: State, c: CallId)
    requires Inv(s) && c in s.calls && s.calls[c].at.Resolving? && Suspended(s, s.calls[c].row.subject)
    ensures Next(s, Advance(c)) == Goto(s, c, Revoking(SubjectGone))
    ensures s.calls[c].row.family in s.chain && Over(Next(s, Advance(c)), s.calls[c].row.family)
  {
    var family, after := s.calls[c].row.family, Next(s, Advance(c));
    assert after == ResolveSubject(s, c);
    assert CallOk(s, s.calls[c]);
    forall t ensures !LiveIn(after.rows, family, t) {
      assert t in s.rows ==> RowOk(s, t, s.rows[t]);
    }
    forall d ensures !InFlightIn(after, family, d) {
      assert d in s.calls ==> CallOk(s, s.calls[d]);
    }
  }

  /** A rotation that resolves a suspended account ends its family then and there, and for good. */
  lemma SuspendedResolveEndsTheFamily(steps: seq<Step>, c: CallId, later: seq<Step>)
    requires var s := Run(INITIAL, steps);
             c in s.calls && s.calls[c].at.Resolving? && Suspended(s, s.calls[c].row.subject)
    ensures var after := Next(Run(INITIAL, steps), Advance(c));
            var family := Run(INITIAL, steps).calls[c].row.family;
            && after.calls[c].at == Revoking(SubjectGone)
            && family in after.chain && family in Run(after, later).chain
            && Over(after, family) && Over(Run(after, later), family)
            && Run(after, later).chain[family] == after.chain[family]
  {
    var s := Run(INITIAL, steps);
    RunKeepsInv(INITIAL, steps);
    ResolvingFindsNobody(s, c);
    StepKeepsInv(s, Advance(c));
    OverIsFinal(Next(s, Advance(c)), later, s.calls[c].row.family);
  }

  // ----- a suspension that does not hold -----

  const SUSPENDED := Subject(3, Driver)

  /**
   * A call that read the driver's row before the suspension saves it after,
   * with every session already revoked: the driver is active again.
   */
  lemma StaleSaveUndoesASuspension() returns (steps: seq<Step>)
    ensures Suspended(Run(INITIAL, steps), SUSPENDED)
    ensures !Suspended(Run(INITIAL, steps + [SaveCopy(9)]), SUSPENDED)
    ensures SetDriver(3, Some(false)) in steps
  {
    var s1 := [SetDriver(3, Some(true))];
    Then(INITIAL, [], SetDriver(3, Some(true)));
    assert [] + s1 == s1;
    var s2 := s1 + [LoadDriver(9, 3)];
    Then(INITIAL, s1, LoadDriver(9, 3));
    var s3 := s2 + [SetDriver(3, Some(false))];
    Then(INITIAL, s2, SetDriver(3, Some(false)));
    steps := s3 + [RevokeAll(SUSPENDED)];
    Then(INITIAL, s3, RevokeAll(SUSPENDED));
    Then(INITIAL, steps, SaveCopy(9));
    assert steps[2] == SetDriver(3, Some(false));
  }

  // ----- runs that show where finality stops -----

  const RIDER := Subject(7, User)
  const RIDERS := Accounts(map[], map[7 := Account(false, false)], map[])
  const FIRST := RefreshToken(0, RIDER, TTL, None, None)
  const SECOND := RefreshToken(0, RIDER, 59 * DAY, None, None)
  const STAMPED := SECOND.(reason := Some(ReuseDetected))

  /** Two clients hold token 0, and both have passed the expiry check when one of them wins the claim. */
  const RACED := State(
    29 * DAY,
    map[0 := FIRST.Revoke(29 * DAY, Rotated)],
    map[1 := Call(0, FIRST, Resolving), 2 := Call(0, FIRST, Revoking(LostRace))],
    1, 1, map[0 := [0]], RIDERS)

  /** The loser's first UPDATE finds no live row; the winner is about to mint. */
  const MINTING := RACED.(calls := map[1 := Call(0, FIRST, Minting(RIDER)), 2 := Call(0, FIRST, Stamping(LostRace))])

  /** The winner mints between the loser's two UPDATEs. */
  const MINTED := RACED.(
    rows := map[0 := FIRST.Revoke(29 * DAY, Rotated), 1 := SECOND],
    calls := map[1 := Call(0, FIRST, Returned(Committed)), 2 := Call(0, FIRST, Stamping(LostRace))],
    nextToken := 2, chain := map[0 := [0, 1]])

  const FORKED := MINTED.(
    rows := map[0 := FIRST.Revoke(29 * DAY, ReuseDetected), 1 := STAMPED],
    calls := map[1 := Call(0, FIRST, Returned(Committed)), 2 := Call(0, FIRST, Returned(Revoked(LostRace)))])

  /** Ten days later the sweep takes the old row and its stamp; then token 1 is claimed. */
  const SWEPT := FORKED.(now := 39 * DAY, rows := map[1 := STAMPED])
  const RECLAIMED := SWEPT.(
    rows := map[1 := STAMPED.Revoke(39 * DAY, Rotated)],
    calls := FORKED.calls[3 := Call(1, STAMPED, Resolving)])

  /** One session, 29 days old. */
  const AGED := State(29 * DAY, map[0 := FIRST], map[], 1, 1, map[0 := [0]], RIDERS)

  lemma SessionAges() returns (steps: seq<Step>)
    ensures Sweep !in steps && Run(INITIAL, steps) == AGED
  {
    var s0 := [SetUser(7, Some(Account(false, false)))];
    Then(INITIAL, [], SetUser(7, Some(Account(false, false))));
    assert [] + s0 == s0;
    var s1 := s0 + [SignIn(RIDER)];
    Then(INITIAL, s0, SignIn(RIDER));
    steps := s1 + [Tick(29 * DAY)];
    Then(INITIAL, s1, Tick(29 * DAY));
  }

  lemma BothPassTheCheck()
    ensures Next(Next(Next(Next(AGED, Read(1, 0)), Read(2, 0)), Advance(1)), Advance(2))
            == AGED.(calls := map[1 := Call(0, FIRST, Claiming), 2 := Call(0, FIRST, Claiming)])
  {
  }

  lemma OneWinsTheClaim(s: State)
    requires s == AGED.(calls := map[1 := Call(0, FIRST, Claiming), 2 := Call(0, FIRST, Claiming)])
    ensures Next(Next(s, Advance(1)), Advance(2)) == RACED
  {
  }

  lemma RaceIsOn() returns (steps: seq<Step>)
    ensures Sweep !in steps && Run(INITIAL, steps) == RACED
  {
    var s0 := SessionAges();
    var s1 := s0 + [Read(1, 0)];
    Then(INITIAL, s0, Read(1, 0));
    var s2 := s1 + [Read(2, 0)];
    Then(INITIAL, s1, Read(2, 0));
    var s3 := s2 + [Advance(1)];
    Then(INITIAL, s2, Advance(1));
    var s4 := s3 + [Advance(2)];
    Then(INITIAL, s3, Advance(2));
    BothPassTheCheck();
    var s5 := s4 + [Advance(1)];
    Then(INITIAL, s4, Advance(1));
    steps := s5 + [Advance(2)];
    Then(INITIAL, s5, Advance(2));
    OneWinsTheClaim(Run(INITIAL, s4));
  }

  lemma LoserRevokesNothing()
    ensures Next(Next(RACED, RevokeFirst(2)), Advance(1)) == MINTING
  {
    var s1 := Next(RACED, RevokeFirst(2));
    assert s1.rows == RACED.rows;
    assert s1 == RACED.(calls := RACED.calls[2 := Call(0, FIRST, Stamping(LostRace))]);
    assert Next(s1, Advance(1)) == ResolveSubject(s1, 1);
  }

  lemma WinnerMintsInBetween()
    ensures Next(MINTING, Advance(1)) == MINTED
  {
    NothingToFind();
    assert [0] + [1] == [0, 1];
    assert Next(MINTING, Advance(1)) == MintCommits(MINTING, 1, MINTED.rows);
    assert MintCommits(MINTING, 1, MINTED.rows).calls == MINTED.calls;
    assert MintCommits(MINTING, 1, MINTED.rows).chain == MINTED.chain;
  }

  lemma NothingToFind()
    ensures Insert(RACED.rows, 1, 0, RIDER, 29 * DAY) == MINTED.rows && !Breached(MINTED.rows, 0)
  {
  }

  lemma LoserStampsTooLate()
    ensures Next(MINTED, Advance(2)) == FORKED
  {
  }

  /**
   * A live row can outlast a detected breach: the winner mints between the
   * loser's two UPDATEs. (By BreachIsFinal the row cannot be exchanged.)
   */
  lemma BreachLeavesALiveRow() returns (steps: seq<Step>)
    ensures Sweep !in steps && Run(INITIAL, steps) == FORKED
    ensures Sealed(FORKED.rows, 0) && LiveIn(FORKED.rows, 0, 1)
  {
    var s0 := RaceIsOn();
    var s1 := s0 + [RevokeFirst(2)];
    Then(INITIAL, s0, RevokeFirst(2));
    var s2 := s1 + [Advance(1)];
    Then(INITIAL, s1, Advance(1));
    var s3 := s2 + [Advance(1)];
    Then(INITIAL, s2, Advance(1));
    LoserRevokesNothing();
    WinnerMintsInBetween();
    steps := s3 + [Advance(2)];
    Then(INITIAL, s3, Advance(2));
    LoserStampsTooLate();
    assert SealedBy(FORKED.rows, 0, 0);
  }

  /** The winner mints after the loser has stopped, before its revoke. */
  const SPARED := MINTED.(
    calls := map[1 := Call(0, FIRST, Returned(Committed)),
                 2 := Call(0, FIRST, Returned(Crashed(false, BeforeRevoke(LostRace))))])

  const STOPPED := MINTING.(
    calls := map[1 := Call(0, FIRST, Minting(RIDER)),
                 2 := Call(0, FIRST, Returned(Crashed(false, BeforeRevoke(LostRace))))])

  lemma LoserStops()
    ensures Next(Next(RACED, Crash(2)), Advance(1)) == STOPPED
  {
    var s1 := Next(RACED, Crash(2));
    assert s1 == RACED.(calls := RACED.calls[2 := Call(0, FIRST, Returned(Crashed(false, BeforeRevoke(LostRace))))]);
    assert Next(s1, Advance(1)) == ResolveSubject(s1, 1);
  }

  lemma WinnerMintsUnhindered()
    ensures Next(STOPPED, Advance(1)) == SPARED
  {
    NothingToFind();
    assert [0] + [1] == [0, 1];
    assert Next(STOPPED, Advance(1)) == MintCommits(STOPPED, 1, MINTED.rows);
    assert MintCommits(STOPPED, 1, MINTED.rows).calls == SPARED.calls;
    assert MintCommits(STOPPED, 1, MINTED.rows).chain == SPARED.chain;
  }

  /**
   * The loser of a race has to return from its revoke: if it stops after it
   * found the race lost, the winner keeps the session, and nothing tells.
   */
  lemma StoppedLoserSparesTheSession() returns (steps: seq<Step>)
    ensures Sweep !in steps && Run(INITIAL, steps) == SPARED
    ensures LiveIn(SPARED.rows, 0, 1) && !Breached(SPARED.rows, 0) && SPARED.chain == map[0 := [0, 1]]
  {
    var s0 := RaceIsOn();
    var s1 := s0 + [Crash(2)];
    Then(INITIAL, s0, Crash(2));
    var s2 := s1 + [Advance(1)];
    Then(INITIAL, s1, Advance(1));
    LoserStops();
    WinnerMintsUnhindered();
    steps := s2 + [Advance(1)];
    Then(INITIAL, s2, Advance(1));
  }

  lemma SweepTakesTheStamp()
    ensures Next(Next(FORKED, Tick(10 * DAY)), Sweep) == SWEPT
  {
  }

  lemma SweptRowIsReclaimed()
    ensures Next(Next(Next(SWEPT, Read(3, 1)), Advance(3)), Advance(3)) == RECLAIMED
  {
  }

  lemma ReclaimedIsExchanged()
    ensures var s := Next(Next(RECLAIMED, Advance(3)), Advance(3));
            3 in s.calls && s.calls[3].at == Returned(Committed) && s.chain == map[0 := [0, 1, 2]] && IsLive(s.rows, 2)
  {
    var s1 := Next(RECLAIMED, Advance(3));
    assert s1 == RECLAIMED.(calls := RECLAIMED.calls[3 := Call(1, STAMPED, Minting(RIDER))]);
    var minted := Insert(s1.rows, 2, 0, RIDER, 39 * DAY);
    assert !Breached(minted, 0);
    assert Next(s1, Advance(3)) == MintCommits(s1, 3, minted);
    assert [0, 1] + [2] == [0, 1, 2];
    assert MintCommits(s1, 3, minted).chain == map[0 := [0, 1, 2]];
  }

  lemma SweptAndReclaimed(steps: seq<Step>)
    requires Run(INITIAL, steps) == FORKED
    ensures Run(INITIAL, steps + [Tick(10 * DAY), Sweep, Read(3, 1), Advance(3), Advance(3)]) == RECLAIMED
  {
    var s1 := steps + [Tick(10 * DAY)];
    Then(INITIAL, steps, Tick(10 * DAY));
    var s2 := s1 + [Sweep];
    Then(INITIAL, s1, Sweep);
    SweepTakesTheStamp();
    var s3 := s2 + [Read(3, 1)];
    Then(INITIAL, s2, Read(3, 1));
    var s4 := s3 + [Advance(3)];
    Then(INITIAL, s3, Advance(3));
    Then(INITIAL, s4, Advance(3));
    SweptRowIsReclaimed();
    assert steps + [Tick(10 * DAY), Sweep, Read(3, 1), Advance(3), Advance(3)] == s4 + [Advance(3)];
  }

  /**
   * Sweeping can forget that breach: ten days later the stamped row is gone,
   * the live one is not, and rotating it succeeds.
   */
  lemma SweepForgetsABreach() returns (steps: seq<Step>, later: seq<Step>)
    ensures Sealed(Run(INITIAL, steps).rows, 0)
    ensures var s := Run(INITIAL, steps + later);
            3 in s.calls && s.calls[3].at == Returned(Committed) && s.chain == map[0 := [0, 1, 2]] && IsLive(s.rows, 2)
  {
    steps := BreachLeavesALiveRow();
    SweptAndReclaimed(steps);
    var reclaimed := [Tick(10 * DAY), Sweep, Read(3, 1), Advance(3), Advance(3)];
    var s1 := steps + reclaimed + [Advance(3)];
    Then(INITIAL, steps + reclaimed, Advance(3));
    Then(INITIAL, s1, Advance(3));
    ReclaimedIsExchanged();
    later := reclaimed + [Advance(3), Advance(3)];
    assert steps + later == s1 + [Advance(3)];
  }
}
