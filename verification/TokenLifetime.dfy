/** Which families are over, and which can still be exchanged, sweeps included. */
module TokenLifetime {
  import opened Prelude
  import opened RefreshTokens
  import opened TokenProtocol
  import opened TokenSteps

  // ----- a family without a unit of session is over, swept or not -----

  /** No live row and no exchange in flight. */
  ghost predicate Over(s: State, family: FamilyId) {
    && NoLive(s.rows, family)
    && forall c :: !InFlightIn(s, family, c)
  }

  /** Rows come to life only in a mint or a sign-in. */
  lemma LifeComesFromMints(s: State, step: Step, t: TokenId)
    requires IsLive(Next(s, step).rows, t)
    ensures || (IsLive(s.rows, t) && s.rows[t].family == Next(s, step).rows[t].family)
            || (step.SignIn? && Next(s, step).rows[t].family == s.nextFamily)
            || (step.Advance? && InFlightIn(s, Next(s, step).rows[t].family, step.c))
  {
    match step
    case Advance(c) => if c in s.calls { AdvanceGivesLife(s, c, t); }
    case _ =>
  }

  lemma AdvanceGivesLife(s: State, c: CallId, t: TokenId)
    requires c in s.calls && IsLive(Advanced(s, c).rows, t)
    ensures || (IsLive(s.rows, t) && s.rows[t].family == Advanced(s, c).rows[t].family)
            || InFlightIn(s, Advanced(s, c).rows[t].family, c)
  {
    match s.calls[c].at
    case Minting(subject) =>
    case _ =>
  }

  /** An exchange is in flight only after a claim on a live row. */
  lemma FlightComesFromClaims(s: State, step: Step, family: FamilyId, c: CallId)
    requires Inv(s) && InFlightIn(Next(s, step), family, c)
    ensures InFlightIn(s, family, c) || exists t :: LiveIn(s.rows, family, t)
  {
    if c !in s.calls {
      NewCallsOnlyRead(s, step, c);
    } else if !Moves(step, c) {
      OtherCallsStay(s, step, c);
    } else if step.Advance? {
      AdvanceMovesOne(s, c, c);
      AdvanceTakesFlight(s, c);
      assert CallOk(s, s.calls[c]);
      assert InFlight(s.calls[c]) || LiveIn(s.rows, family, s.calls[c].id);
    }
  }

  lemma MintEndsTheFlight(s: State, c: CallId, subject: Subject)
    requires c in s.calls
    ensures !InFlight(Mint(s, c, subject).calls[c])
  {
  }

  lemma AdvanceTakesFlight(s: State, c: CallId)
    requires c in s.calls
    ensures InFlight(Advanced(s, c).calls[c]) ==>
              InFlight(s.calls[c]) || (s.calls[c].at.Claiming? && IsLive(s.rows, s.calls[c].id))
  {
    match s.calls[c].at
    case Checking => assert Advanced(s, c) == Check(s, c);
    case Claiming =>
    case Minting(subject) => MintEndsTheFlight(s, c, subject);
    case _ =>
  }

  lemma OverStepsToOver(s: State, step: Step, family: FamilyId)
    requires Inv(s) && family in s.chain && Over(s, family)
    ensures var after := Next(s, step);
            Over(after, family) && family in after.chain && after.chain[family] == s.chain[family]
  {
    var after := Next(s, step);
    assert FamilyOk(s, family);
    forall t ensures !LiveIn(after.rows, family, t) {
      if LiveIn(after.rows, family, t) {
        LifeComesFromMints(s, step, t);
        assert LiveIn(s.rows, family, t);
      }
    }
    forall c ensures !InFlightIn(after, family, c) {
      if InFlightIn(after, family, c) { FlightComesFromClaims(s, step, family, c); }
    }
    if step.Advance? && step.c in s.calls {
      AdvanceLengthens(s, step.c);
      assert !InFlightIn(s, family, step.c);
    }
  }

  /** A family that is over stays over: no run, with or without sweeping, exchanges one of its tokens again. */
  lemma {:induction false} OverIsFinal(s: State, steps: seq<Step>, family: FamilyId)
    requires Inv(s) && family in s.chain && Over(s, family)
    ensures var after := Run(s, steps);
            Over(after, family) && family in after.chain && after.chain[family] == s.chain[family]
  {
    if steps != [] {
      OverIsFinal(s, steps[..|steps| - 1], family);
      RunKeepsInv(s, steps[..|steps| - 1]);
      OverStepsToOver(Run(s, steps[..|steps| - 1]), steps[|steps| - 1], family);
    }
  }

  /**
   * However the calls interleave, a family without a live row gets one again
   * only by a mint that lengthens its chain.
   */
  lemma {:induction false} LifeNeedsAMint(s: State, steps: seq<Step>, family: FamilyId)
    requires Inv(s) && family in s.chain && NoLive(s.rows, family)
    ensures var after := Run(s, steps);
            && family in after.chain && |after.chain[family]| >= |s.chain[family]|
            && (|after.chain[family]| > |s.chain[family]| || NoLive(after.rows, family))
  {
    if steps != [] {
      var before, last := Run(s, steps[..|steps| - 1]), steps[|steps| - 1];
      LifeNeedsAMint(s, steps[..|steps| - 1], family);
      RunKeepsInv(s, steps[..|steps| - 1]);
      StepNeedsAMint(before, last, family);
    }
  }

  lemma StepNeedsAMint(s: State, step: Step, family: FamilyId)
    requires Inv(s) && family in s.chain
    ensures var after := Next(s, step);
            && family in after.chain && |after.chain[family]| >= |s.chain[family]|
            && (|after.chain[family]| > |s.chain[family]| || !NoLive(s.rows, family) || NoLive(after.rows, family))
  {
    var after := Next(s, step);
    assert FamilyOk(s, family);
    if step.Advance? && step.c in s.calls { AdvanceLengthens(s, step.c); }
    if NoLive(s.rows, family) && after.chain[family] == s.chain[family] {
      if step.Advance? && InFlightIn(s, family, step.c) {
        QuietAdvanceGivesNoLife(s, step.c);
      } else {
        forall t ensures !LiveIn(after.rows, family, t) {
          assert !LiveIn(s.rows, family, t);
          if LiveIn(after.rows, family, t) { LifeComesFromMints(s, step, t); }
        }
      }
    }
  }

  /** An exchange that does not lengthen its chain brings no row to life. */
  lemma QuietAdvanceGivesNoLife(s: State, c: CallId)
    requires c in s.calls && s.calls[c].row.family in s.chain && NoLive(s.rows, s.calls[c].row.family)
    requires s.calls[c].row.family in Advanced(s, c).chain
    requires Advanced(s, c).chain[s.calls[c].row.family] == s.chain[s.calls[c].row.family]
    ensures NoLive(Advanced(s, c).rows, s.calls[c].row.family)
  {
    var family := s.calls[c].row.family;
    forall t ensures !LiveIn(Advanced(s, c).rows, family, t) {
      assert !LiveIn(s.rows, family, t);
      match s.calls[c].at
      case Minting(subject) =>
      case _ =>
    }
  }

  // ----- exactly which families can still be exchanged -----

  /** An unexpired live row: whoever holds the token can present it. */
  predicate Presentable(s: State, family: FamilyId, t: TokenId) {
    LiveIn(s.rows, family, t) && s.rows[t].expiresAt > s.now
  }

  /** An exchange that has claimed its token, or has passed every check and is about to claim a live row. */
  predicate Underway(s: State, family: FamilyId, c: CallId) {
    || InFlightIn(s, family, c)
    || (c in s.calls && s.calls[c].at.Claiming? && LiveIn(s.rows, family, s.calls[c].id))
  }

  ghost predicate Continues(s: State, family: FamilyId) {
    (exists t :: Presentable(s, family, t)) || exists c :: Underway(s, family, c)
  }

  /** The run adds a token to the family. */
  ghost predicate Exchanged(s: State, later: seq<Step>, family: FamilyId) {
    var after := Run(s, later);
    family in s.chain && family in after.chain && |after.chain[family]| > |s.chain[family]|
  }

  lemma NextTokenComesFromMints(s: State, step: Step)
    requires s.nextToken !in s.rows && IsLive(Next(s, step).rows, s.nextToken)
    ensures var family := Next(s, step).rows[s.nextToken].family;
            (step.SignIn? && family == s.nextFamily) || (step.Advance? && InFlightIn(s, family, step.c))
  {
    LifeComesFromMints(s, step, s.nextToken);
  }

  lemma NoneBecomesPresentable(s: State, step: Step, family: FamilyId, t: TokenId)
    requires Inv(s) && family in s.chain && !Continues(s, family)
    ensures !Presentable(Next(s, step), family, t)
  {
    NextTokenIsUnused(s);
    assert FamilyOk(s, family) && !Presentable(s, family, t);
    if Presentable(Next(s, step), family, t) {
      TimeGoesOn(s, step);
      if t == s.nextToken {
        NextTokenComesFromMints(s, step);
        assert Underway(s, family, step.c);
      } else {
        NothingIsRevived(s, step, t);
      }
    }
  }

  /** What an Advance leaves underway was underway, or had just read an unexpired row that is live. */
  lemma AdvanceStaysUnderway(s: State, c: CallId, family: FamilyId)
    requires Inv(s) && ReadsAgree(s) && c in s.calls && Underway(Advanced(s, c), family, c)
    ensures Underway(s, family, c) || Presentable(s, family, s.calls[c].id)
  {
    var call := s.calls[c];
    assert CallOk(s, call) && CopyAgrees(s.rows, call);
    match call.at
    case Checking => assert Advanced(s, c) == Check(s, c);
    case Claiming => assert Advanced(s, c) == ClaimToken(s, c);
    case Minting(subject) => MintEndsTheFlight(s, c, subject);
    case _ =>
  }

  /** A call that stays where it is claims a live row only if the row was live. */
  lemma OthersStayUnderway(s: State, step: Step, c: CallId, family: FamilyId)
    requires Inv(s) && c in s.calls && !Moves(step, c) && Underway(Next(s, step), family, c)
    ensures Underway(s, family, c)
  {
    OtherCallsStay(s, step, c);
    assert CallOk(s, s.calls[c]);
    if s.calls[c].at.Claiming? { NothingIsRevived(s, step, s.calls[c].id); }
  }

  lemma NoneGetsUnderway(s: State, step: Step, family: FamilyId, c: CallId)
    requires Inv(s) && ReadsAgree(s) && !Continues(s, family)
    ensures !Underway(Next(s, step), family, c)
  {
    assert !Underway(s, family, c) && (c in s.calls ==> !Presentable(s, family, s.calls[c].id));
    if Underway(Next(s, step), family, c) {
      if c !in s.calls {
        NewCallsOnlyRead(s, step, c);
      } else if !Moves(step, c) {
        OthersStayUnderway(s, step, c, family);
      } else if step.Advance? {
        AdvanceStaysUnderway(s, c, family);
      }
    }
  }

  lemma SpentStaysSpent(s: State, step: Step, family: FamilyId)
    requires Inv(s) && ReadsAgree(s) && family in s.chain && !Continues(s, family)
    ensures var after := Next(s, step);
            !Continues(after, family) && family in after.chain && after.chain[family] == s.chain[family]
  {
    forall t ensures !Presentable(Next(s, step), family, t) {
      NoneBecomesPresentable(s, step, family, t);
    }
    forall c ensures !Underway(Next(s, step), family, c) {
      NoneGetsUnderway(s, step, family, c);
    }
    assert FamilyOk(s, family);
    if step.Advance? && step.c in s.calls {
      AdvanceLengthens(s, step.c);
      assert !Underway(s, family, step.c);
    }
  }

  lemma {:induction false} SpentIsFinal(s: State, later: seq<Step>, family: FamilyId)
    requires Inv(s) && ReadsAgree(s) && family in s.chain && !Continues(s, family)
    ensures var after := Run(s, later);
            && Inv(after) && ReadsAgree(after)
            && !Continues(after, family) && family in after.chain && after.chain[family] == s.chain[family]
  {
    if later != [] {
      var front, last := later[..|later| - 1], later[|later| - 1];
      SpentIsFinal(s, front, family);
      StepKeepsInv(Run(s, front), last);
      StepKeepsReads(Run(s, front), last);
      SpentStaysSpent(Run(s, front), last, family);
    }
  }

  // ----- and how the others are -----

  /** An administrator reinstates, or creates, the account the call stands for. */
  function Reinstate(subject: Subject): Step {
    if subject.role == Driver then SetDriver(subject.id, Some(true))
    else SetUser(subject.id, Some(Account(false, false)))
  }

  lemma ReinstatedResolves(s: State, c: CallId) returns (subject: Subject)
    requires c in s.calls && s.calls[c].at.Resolving?
    ensures var reinstated := Next(s, Reinstate(s.calls[c].row.subject));
            c in reinstated.calls && Next(reinstated, Advance(c)) == Goto(reinstated, c, Minting(subject))
    ensures Next(s, Reinstate(s.calls[c].row.subject)).chain == s.chain
    ensures Next(s, Reinstate(s.calls[c].row.subject)).calls == s.calls
  {
    var reinstated := Next(s, Reinstate(s.calls[c].row.subject));
    assert Resolve(reinstated.accounts, s.calls[c].row.subject).Some?;
    subject := Resolve(reinstated.accounts, s.calls[c].row.subject).value;
    assert Next(reinstated, Advance(c)) == ResolveSubject(reinstated, c);
  }

  /** Long enough to sweep every row there is. */
  ghost function LastExpiry(rows: Table): (time: nat)
    ensures forall t :: t in rows ==> rows[t].expiresAt < time
    decreases |rows|
  {
    if rows == map[] then 0
    else
      var t :| t in rows;
      var rest := rows - {t};
      assert rows.Keys == rest.Keys + {t} && rest.Keys == rows.Keys - {t};
      var time := LastExpiry(rest);
      if rows[t].expiresAt < time then time else rows[t].expiresAt + 1
  }

  /** A mint that waits until everything is swept finds no breach. */
  lemma LateMintCommits(s: State, c: CallId, subject: Subject)
    requires c in s.calls && s.calls[c].at == Minting(subject) && s.rows == map[]
    ensures Next(s, Advance(c)).chain
            == var family := s.calls[c].row.family;
               s.chain[family := (if family in s.chain then s.chain[family] else []) + [s.nextToken]]
  {
  }

  lemma SweptClean(s: State, wait: nat)
    requires s.now + wait > GRACE + LastExpiry(s.rows)
    ensures Next(Next(s, Tick(wait)), Sweep) == s.(now := s.now + wait, rows := map[])
  {
    assert Prune(s.rows, s.now + wait) == map[];
  }

  lemma MinterLands(s: State, c: CallId, subject: Subject) returns (after: State)
    requires c in s.calls && s.calls[c].at == Minting(subject) && s.calls[c].row.family in s.chain
    ensures CanReach(s, after) && s.calls[c].row.family in after.chain
    ensures |after.chain[s.calls[c].row.family]| > |s.chain[s.calls[c].row.family]|
  {
    var wait: nat := if s.now > 0 then GRACE + LastExpiry(s.rows) + 1 else GRACE + LastExpiry(s.rows) + 1 - s.now;
    var swept := Next(Next(s, Tick(wait)), Sweep);
    SweptClean(s, wait);
    ReachesItself(s);
    ReachesNext(s, s, Tick(wait));
    ReachesNext(s, Next(s, Tick(wait)), Sweep);
    after := Next(swept, Advance(c));
    ReachesNext(s, swept, Advance(c));
    LateMintCommits(swept, c, subject);
  }

  lemma FlightLands(s: State, c: CallId) returns (after: State)
    requires c in s.calls && InFlight(s.calls[c]) && s.calls[c].row.family in s.chain
    ensures CanReach(s, after) && s.calls[c].row.family in after.chain
    ensures |after.chain[s.calls[c].row.family]| > |s.chain[s.calls[c].row.family]|
  {
    if s.calls[c].at.Resolving? {
      var reinstate := Reinstate(s.calls[c].row.subject);
      var subject := ReinstatedResolves(s, c);
      var minting := Next(Next(s, reinstate), Advance(c));
      after := MinterLands(minting, c, subject);
      ReachesItself(s);
      ReachesNext(s, s, reinstate);
      ReachesNext(s, Next(s, reinstate), Advance(c));
      ReachesOn(s, minting, after);
    } else {
      after := MinterLands(s, c, s.calls[c].at.subject);
    }
  }

  lemma ClaimLands(s: State, c: CallId) returns (after: State)
    requires c in s.calls && s.calls[c].at.Claiming?
    requires IsLive(s.rows, s.calls[c].id) && s.calls[c].row.family in s.chain
    ensures CanReach(s, after) && s.calls[c].row.family in after.chain
    ensures |after.chain[s.calls[c].row.family]| > |s.chain[s.calls[c].row.family]|
  {
    var claimed := ClaimToken(s, c);
    assert Next(s, Advance(c)) == claimed;
    after := FlightLands(claimed, c);
    ReachesItself(s);
    ReachesNext(s, s, Advance(c));
    ReachesOn(s, claimed, after);
  }

  lemma PresentedLands(s: State, t: TokenId) returns (after: State)
    requires IsLive(s.rows, t) && s.rows[t].expiresAt > s.now && s.rows[t].family in s.chain
    ensures CanReach(s, after) && s.rows[t].family in after.chain
    ensures |after.chain[s.rows[t].family]| > |s.chain[s.rows[t].family]|
  {
    var c := Above(s.calls.Keys);
    var read := Begun(s, c, t, Checking);
    var checked := Goto(read, c, Claiming);
    assert Next(s, Read(c, t)) == read && Check(read, c) == checked && Next(read, Advance(c)) == checked;
    after := ClaimLands(checked, c);
    ReachesItself(s);
    ReachesNext(s, s, Read(c, t));
    ReachesNext(s, read, Advance(c));
    ReachesOn(s, checked, after);
  }

  lemma ContinuingIsExchanged(s: State, family: FamilyId) returns (later: seq<Step>)
    requires Inv(s) && family in s.chain && Continues(s, family)
    ensures Exchanged(s, later, family)
  {
    var after: State;
    if t :| Presentable(s, family, t) {
      after := PresentedLands(s, t);
    } else {
      var c :| Underway(s, family, c);
      assert CallOk(s, s.calls[c]);
      if InFlightIn(s, family, c) { after := FlightLands(s, c); } else { after := ClaimLands(s, c); }
    }
    later :| Run(s, later) == after;
  }

  /**
   * With sweeps, crashes and reinstatements allowed, stamped as reused or not:
   * some later run exchanges a token of the family if and only if it has an
   * unexpired live row, an exchange in flight, or a call past the expiry check
   * on a live row. Otherwise none ever does.
   */
  lemma ExchangedAgainExactly(steps: seq<Step>, family: FamilyId)
    requires family in Run(INITIAL, steps).chain
    ensures var s := Run(INITIAL, steps);
            (exists later :: Exchanged(s, later, family)) <==> Continues(s, family)
  {
    RunKeepsReads(steps);
    var s := Run(INITIAL, steps);
    if Continues(s, family) {
      var later := ContinuingIsExchanged(s, family);
    } else {
      forall later ensures !Exchanged(s, later, family) {
        SpentIsFinal(s, later, family);
      }
    }
  }
}
