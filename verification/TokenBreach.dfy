/** What a detected reuse means for every later run, sweeps included. */
module TokenBreach {
  import opened RefreshTokens
  import opened TokenProtocol
  import opened TokenSteps

  // ----- sweeps -----

  /** Some sweep of the run came later than the given time. */
  predicate SweptAfter(s: State, steps: seq<Step>, time: int) {
    steps != [] &&
    var front, last := steps[..|steps| - 1], steps[|steps| - 1];
    SweptAfter(s, front, time) || (last == Sweep && Run(s, front).now > time)
  }

  /** So no sweep did while the clock has not passed that time. */
  lemma {:induction false} SweepsTakeTime(s: State, steps: seq<Step>, time: int)
    ensures Run(s, steps).now >= s.now
    ensures SweptAfter(s, steps, time) ==> Run(s, steps).now > time
  {
    if steps != [] {
      SweepsTakeTime(s, steps[..|steps| - 1], time);
      TimeGoesOn(Run(s, steps[..|steps| - 1]), steps[|steps| - 1]);
    }
  }

  /** The run exchanges no token of the family. */
  predicate NeverExchanged(s: State, later: seq<Step>, family: FamilyId) {
    var after := Run(s, later);
    family in s.chain && family in after.chain && after.chain[family] == s.chain[family]
  }

  /** The step deletes no row that is within its grace period. */
  predicate SparesRow(s: State, step: Step, t: TokenId) {
    step == Sweep && t in s.rows ==> s.now <= s.rows[t].expiresAt + GRACE
  }

  /** The row is still there, no more alive than it was, and still stamped if it was revoked and stamped. */
  predicate KeepsRow(rows: Table, after: Table, t: TokenId) {
    t in rows ==>
      && t in after && after[t].family == rows[t].family && after[t].expiresAt == rows[t].expiresAt
      && (after[t].Live() ==> rows[t].Live())
      && (SealedBy(rows, rows[t].family, t) ==> SealedBy(after, rows[t].family, t))
  }

  lemma AdvanceKeepsRow(s: State, c: CallId, t: TokenId)
    requires c in s.calls && s.nextToken !in s.rows
    ensures KeepsRow(s.rows, Advanced(s, c).rows, t)
  {
    match s.calls[c].at
    case Minting(_) =>
    case _ =>
  }

  lemma StepKeepsRow(s: State, step: Step, t: TokenId)
    requires s.nextToken !in s.rows && SparesRow(s, step, t)
    ensures KeepsRow(s.rows, Next(s, step).rows, t)
  {
    if step.Advance? && step.c in s.calls { AdvanceKeepsRow(s, step.c, t); }
  }

  // ----- a sealed family never exchanges again -----

  lemma SealBlocksMint(s: State, c: CallId, subject: Subject, seal: TokenId)
    requires c in s.calls && SealedBy(s.rows, s.calls[c].row.family, seal) && s.nextToken !in s.rows
    ensures Mint(s, c, subject) == Goto(s, c, Revoking(Compromised))
  {
    assert Insert(s.rows, s.nextToken, s.calls[c].row.family, subject, s.now)[seal] == s.rows[seal];
  }

  lemma AdvanceKeepsOtherChains(s: State, c: CallId, family: FamilyId)
    requires c in s.calls && family in s.chain && !(s.calls[c].at.Minting? && s.calls[c].row.family == family)
    ensures family in Advanced(s, c).chain && Advanced(s, c).chain[family] == s.chain[family]
  {
    match s.calls[c].at
    case Claiming =>
    case Minting(_) =>
    case _ =>
  }

  lemma SealKeepsChain(s: State, step: Step, family: FamilyId, seal: TokenId)
    requires Inv(s) && SealedBy(s.rows, family, seal) && family in s.chain
    ensures family in Next(s, step).chain && Next(s, step).chain[family] == s.chain[family]
  {
    NextTokenIsUnused(s);
    assert FamilyOk(s, family);
    if step.Advance? && step.c in s.calls {
      if s.calls[step.c].at.Minting? && s.calls[step.c].row.family == family {
        SealBlocksMint(s, step.c, s.calls[step.c].at.subject, seal);
      } else {
        AdvanceKeepsOtherChains(s, step.c, family);
      }
    }
  }

  /**
   * Breach is final. Once a family holds a revoked row stamped as reused, no
   * rotation of it ever commits again, in any run, until a sweep comes more
   * than seven days after that row has expired.
   */
  lemma {:induction false} BreachIsFinal(s: State, steps: seq<Step>, family: FamilyId, seal: TokenId)
    requires Inv(s) && SealedBy(s.rows, family, seal) && family in s.chain
    ensures var after := Run(s, steps);
            || SweptAfter(s, steps, s.rows[seal].expiresAt + 7 * DAY)
            || (&& NeverExchanged(s, steps, family)
                && SealedBy(after.rows, family, seal) && after.rows[seal].expiresAt == s.rows[seal].expiresAt)
  {
    if steps != [] && !SweptAfter(s, steps, s.rows[seal].expiresAt + 7 * DAY) {
      var front, last := steps[..|steps| - 1], steps[|steps| - 1];
      BreachIsFinal(s, front, family, seal);
      RunKeepsInv(s, front);
      NextTokenIsUnused(Run(s, front));
      StepKeepsRow(Run(s, front), last, seal);
      SealKeepsChain(Run(s, front), last, family, seal);
    }
  }

  // ----- detecting a reuse seals the family -----

  /** The call found that its token is held by two parties. */
  predicate FoundReuse(why: Cause) {
    why != SubjectGone
  }

  predicate ReturnedFromReuse(call: Call) {
    call.at.Returned? && call.at.outcome.Revoked? && FoundReuse(call.at.outcome.why)
  }

  /**
   * While its row is not swept away: it is revoked for good once the call has
   * read it revoked, claimed it, or lost the race for it; and it seals the
   * family by the time a call that found a reuse returns.
   */
  predicate Evidence(s: State, call: Call) {
    && call.id in s.rows && s.rows[call.id].family == call.row.family && s.rows[call.id].expiresAt == call.row.expiresAt
    && (!call.row.Live() || Won(call) ==> !s.rows[call.id].Live())
    && (call.at.Revoking? && FoundReuse(call.at.why) ==> !s.rows[call.id].Live())
    && (call.at.Stamping? ==> FoundReuse(call.at.why) && !s.rows[call.id].Live())
    && (ReturnedFromReuse(call) ==> SealedBy(s.rows, call.row.family, call.id))
  }

  lemma EvidenceKept(s: State, after: State, call: Call)
    requires Evidence(s, call) && KeepsRow(s.rows, after.rows, call.id)
    ensures Evidence(after, call)
  {
  }

  lemma MintKeepsEvidence(s: State, c: CallId, subject: Subject)
    requires c in s.calls && Evidence(s, s.calls[c]) && s.nextToken !in s.rows && s.calls[c].at == Minting(subject)
    ensures Evidence(Mint(s, c, subject), Mint(s, c, subject).calls[c])
  {
  }

  lemma AdvanceKeepsEvidence(s: State, c: CallId)
    requires c in s.calls && Evidence(s, s.calls[c]) && s.nextToken !in s.rows
    ensures Evidence(Advanced(s, c), Advanced(s, c).calls[c])
  {
    match s.calls[c].at
    case Checking => assert Advanced(s, c) == Check(s, c);
    case Claiming => assert Advanced(s, c) == ClaimToken(s, c);
    case Resolving => assert Advanced(s, c) == ResolveSubject(s, c);
    case Minting(subject) => MintKeepsEvidence(s, c, subject);
    case Stamping(_) =>
    case SigningOut =>
    case _ => assert Advanced(s, c) == s;
  }

  lemma RevokingKeepsEvidence(s: State, c: CallId, why: Cause)
    requires c in s.calls && Evidence(s, s.calls[c]) && s.calls[c].at == Revoking(why)
    ensures Evidence(RevokedFirst(s, c, why), RevokedFirst(s, c, why).calls[c])
    ensures Evidence(RevokedWhole(s, c, why), RevokedWhole(s, c, why).calls[c])
  {
  }

  lemma StoppingKeepsEvidence(s: State, c: CallId, outcome: Outcome)
    requires c in s.calls && Evidence(s, s.calls[c])
    requires (outcome == StoreFailed && s.calls[c].at.Minting?) || outcome == Stopped(s.calls[c])
    ensures Evidence(Goto(s, c, Returned(outcome)), Goto(s, c, Returned(outcome)).calls[c])
  {
  }

  lemma MovingKeepsEvidence(s: State, step: Step, c: CallId)
    requires c in s.calls && Moves(step, c) && s.nextToken !in s.rows && Evidence(s, s.calls[c])
    ensures c in Next(s, step).calls && Evidence(Next(s, step), Next(s, step).calls[c])
  {
    match step
    case Advance(_) => AdvanceKeepsEvidence(s, c);
    case RevokeFirst(_) => if s.calls[c].at.Revoking? { RevokingKeepsEvidence(s, c, s.calls[c].at.why); }
    case RevokeWhole(_) => if s.calls[c].at.Revoking? { RevokingKeepsEvidence(s, c, s.calls[c].at.why); }
    case StoreFails(_) => if s.calls[c].at.Minting? { StoppingKeepsEvidence(s, c, StoreFailed); }
    case Crash(_) => StoppingKeepsEvidence(s, c, Stopped(s.calls[c]));
  }

  lemma StepKeepsEvidence(s: State, step: Step, c: CallId)
    requires s.nextToken !in s.rows && c in Next(s, step).calls
    requires c in s.calls ==> Evidence(s, s.calls[c]) && SparesRow(s, step, s.calls[c].id)
    ensures Evidence(Next(s, step), Next(s, step).calls[c])
  {
    if c !in s.calls {
      NewCallsOnlyRead(s, step, c);
    } else if Moves(step, c) {
      MovingKeepsEvidence(s, step, c);
    } else {
      OtherCallsStay(s, step, c);
      StepKeepsRow(s, step, s.calls[c].id);
      EvidenceKept(s, Next(s, step), s.calls[c]);
    }
  }

  lemma TimelyStepKeepsEvidence(s: State, step: Step, c: CallId, until: int)
    requires Inv(s) && c in Next(s, step).calls && until == Next(s, step).calls[c].row.expiresAt + GRACE
    requires step == Sweep ==> s.now <= until
    requires c in s.calls ==> Evidence(s, s.calls[c])
    ensures Evidence(Next(s, step), Next(s, step).calls[c])
  {
    NextTokenIsUnused(s);
    if c in s.calls { ReadsAreKept(s, step, c); }
    StepKeepsEvidence(s, step, c);
  }

  lemma {:induction false} RunKeepsEvidence(steps: seq<Step>, c: CallId, until: int)
    requires c in Run(INITIAL, steps).calls && until == Run(INITIAL, steps).calls[c].row.expiresAt + GRACE
    ensures SweptAfter(INITIAL, steps, until) || Evidence(Run(INITIAL, steps), Run(INITIAL, steps).calls[c])
  {
    if steps != [] && !SweptAfter(INITIAL, steps, until) {
      var front, last := steps[..|steps| - 1], steps[|steps| - 1];
      var before := Run(INITIAL, front);
      RunKeepsInv(INITIAL, front);
      if c in before.calls {
        ReadsAreKept(before, last, c);
        RunKeepsEvidence(front, c, until);
      }
      TimelyStepKeepsEvidence(before, last, c, until);
    }
  }

  /** The call ran its conditional UPDATE, and has returned or stopped for good. */
  predicate TriedItsToken(call: Call) {
    && call.at.Returned?
    && (|| call.at.outcome == Revoked(LostRace) || AfterClaim(call.at.outcome)
        || (call.at.outcome.Crashed? && !call.at.outcome.stop.Elsewhere? && call.at.outcome.stop.why == LostRace))
  }

  /** The call found that another one had claimed its token, and stopped before it had revoked the family. */
  predicate StoppedShort(call: Call) {
    && call.at.Returned? && call.at.outcome.Crashed? && !call.at.outcome.claimed
    && !call.at.outcome.stop.Elsewhere?
  }

  lemma CallsHaveFamilies(s: State, c: CallId)
    requires Inv(s) && c in s.calls
    ensures s.calls[c].row.family in s.chain
  {
    assert CallOk(s, s.calls[c]);
  }

  lemma EvidenceIsFinal(s: State, c: CallId, later: seq<Step>)
    requires Inv(s) && c in s.calls && Evidence(s, s.calls[c])
    requires ReturnedFromReuse(s.calls[c])
    ensures SweptAfter(s, later, s.calls[c].row.expiresAt + 7 * DAY) || NeverExchanged(s, later, s.calls[c].row.family)
  {
    CallsHaveFamilies(s, c);
    BreachIsFinal(s, later, s.calls[c].row.family, s.calls[c].id);
  }

  /**
   * Whoever found the reuse, and whatever ran beside it: once that call has
   * returned, its family is never exchanged again, in any later run, until a
   * sweep comes more than seven days after the token it presented has expired.
   */
  lemma ReuseSealsTheFamily(steps: seq<Step>, c: CallId, later: seq<Step>)
    requires var s := Run(INITIAL, steps); c in s.calls && ReturnedFromReuse(s.calls[c])
    ensures var s := Run(INITIAL, steps);
            var until := s.calls[c].row.expiresAt + 7 * DAY;
            || SweptAfter(INITIAL, steps, until) || SweptAfter(s, later, until)
            || NeverExchanged(s, later, s.calls[c].row.family)
  {
    var s := Run(INITIAL, steps);
    RunKeepsInv(INITIAL, steps);
    RunKeepsEvidence(steps, c, s.calls[c].row.expiresAt + GRACE);
    if Evidence(s, s.calls[c]) { EvidenceIsFinal(s, c, later); }
  }

  /** Of two calls that tried one token, one lost the race for it, and returned if it did not stop short. */
  lemma OneOfTwoLost(s: State, c: CallId, d: CallId)
    requires Inv(s) && c in s.calls && d in s.calls && c != d && s.calls[c].id == s.calls[d].id
    requires TriedItsToken(s.calls[c]) && TriedItsToken(s.calls[d])
    ensures || s.calls[c].at == Returned(Revoked(LostRace)) || s.calls[d].at == Returned(Revoked(LostRace))
            || StoppedShort(s.calls[c]) || StoppedShort(s.calls[d])
  {
  }

  /** As `ReuseSealsTheFamily`, told by another call's copy of the row. */
  lemma LostRaceSeals(steps: seq<Step>, c: CallId, d: CallId, later: seq<Step>)
    requires var s := Run(INITIAL, steps);
             && c in s.calls && d in s.calls && s.calls[c].id == s.calls[d].id
             && s.calls[d].at == Returned(Revoked(LostRace))
    ensures var s := Run(INITIAL, steps);
            var until := s.calls[c].row.expiresAt + 7 * DAY;
            || SweptAfter(INITIAL, steps, until) || SweptAfter(s, later, until)
            || NeverExchanged(s, later, s.calls[c].row.family)
  {
    var s := Run(INITIAL, steps);
    ReadsOfOneToken(steps, c, d);
    ReuseSealsTheFamily(steps, d, later);
  }

  lemma ReadsOfOneToken(steps: seq<Step>, c: CallId, d: CallId)
    requires var s := Run(INITIAL, steps); c in s.calls && d in s.calls && s.calls[c].id == s.calls[d].id
    ensures var s := Run(INITIAL, steps);
            s.calls[c].row.family == s.calls[d].row.family && s.calls[c].row.expiresAt == s.calls[d].row.expiresAt
  {
    RunKeepsReads(steps);
    assert SameCopy(Run(INITIAL, steps).calls[c], Run(INITIAL, steps).calls[d]);
  }

  /**
   * When two rotations of one token both try to claim it, nobody keeps the
   * session: once both are over, no token of the family is ever exchanged
   * again until a sweep comes more than seven days after the token they
   * presented has expired; unless the one that lost the race stopped before
   * it had revoked the family.
   */
  lemma NobodyKeepsAForkedSession(steps: seq<Step>, c: CallId, d: CallId, later: seq<Step>)
    requires var s := Run(INITIAL, steps);
             && c in s.calls && d in s.calls && c != d && s.calls[c].id == s.calls[d].id
             && TriedItsToken(s.calls[c]) && TriedItsToken(s.calls[d])
    ensures var s := Run(INITIAL, steps);
            var until := s.calls[c].row.expiresAt + 7 * DAY;
            || SweptAfter(INITIAL, steps, until) || SweptAfter(s, later, until)
            || NeverExchanged(s, later, s.calls[c].row.family)
            || StoppedShort(s.calls[c]) || StoppedShort(s.calls[d])
  {
    var s := Run(INITIAL, steps);
    RunKeepsInv(INITIAL, steps);
    OneOfTwoLost(s, c, d);
    if s.calls[c].at == Returned(Revoked(LostRace)) {
      LostRaceSeals(steps, c, c, later);
    } else if s.calls[d].at == Returned(Revoked(LostRace)) {
      LostRaceSeals(steps, c, d, later);
    }
  }
}
