/** When a family whose token was reused has a live row left. */
module TokenClean {
  import opened Prelude
  import opened RefreshTokens
  import opened TokenProtocol
  import opened TokenSteps
  import opened TokenLifetime

  /** The call is between the two UPDATEs of a reuse revoke of the family, or stopped there for good. */
  predicate StampPending(s: State, family: FamilyId, c: CallId) {
    c in s.calls && BetweenTheUpdates(s.calls[c].at) && s.calls[c].row.family == family
  }

  predicate BetweenTheUpdates(at: Stage) {
    at.Stamping? || (at.Returned? && at.outcome.Crashed? && at.outcome.stop.BetweenUpdates?)
  }

  /** A family with a stamped row, or with a stamp pending, has no live row. */
  ghost predicate Clean(s: State) {
    && BreachedAreDead(s.rows)
    && forall family, c :: StampPending(s, family, c) ==> NoLive(s.rows, family)
  }

  /** The step is a mint, and its breach check finds no row of the family stamped. */
  predicate Commits(s: State, step: Step) {
    && step.Advance? && step.c in s.calls && s.calls[step.c].at.Minting?
    && !Breached(s.rows, s.calls[step.c].row.family)
  }

  /** Such a mint, while a reuse revoke of its family is between its two UPDATEs. */
  ghost predicate MintUnderStamp(s: State, step: Step) {
    Commits(s, step) && exists d :: StampPending(s, s.calls[step.c].row.family, d)
  }

  // ----- the rows -----

  lemma MintIntoCleanFamily(rows: Table, next: TokenId, family: FamilyId, subject: Subject, now: int)
    requires BreachedAreDead(rows) && next !in rows && !Breached(Insert(rows, next, family, subject, now), family)
    ensures BreachedAreDead(Insert(rows, next, family, subject, now))
  {
    var minted := Insert(rows, next, family, subject, now);
    forall t | t in rows ensures !(rows[t].family == family && rows[t].reason == Some(ReuseDetected)) {
      assert minted[t] == rows[t];
    }
    BreachedStayDead(rows, minted);
  }

  lemma SignInStaysClean(s: State, subject: Subject)
    requires Inv(s) && BreachedAreDead(s.rows)
    ensures BreachedAreDead(SignedIn(s, subject).rows)
  {
    NextTokenIsUnused(s);
    forall t | t in s.rows ensures s.rows[t].family != s.nextFamily {
      assert RowOk(s, t, s.rows[t]);
    }
    BreachedStayDead(s.rows, SignedIn(s, subject).rows);
  }

  /** Evidence may be added in a family without a live row. */
  lemma StampingTheDead(rows: Table, after: Table, family: FamilyId)
    requires BreachedAreDead(rows) && NoLive(after, family)
    requires after.Keys == rows.Keys && forall t :: t in rows ==> after[t].family == rows[t].family
    requires forall t :: t in rows ==> rows[t].family == family || after[t] == rows[t]
    ensures BreachedAreDead(after)
  {
    forall f | Breached(after, f) ensures NoLive(after, f) {
      if f != family {
        var e :| e in after && after[e].family == f && after[e].reason == Some(ReuseDetected);
        assert Breached(rows, f);
        forall t ensures !LiveIn(after, f, t) {
          assert !LiveIn(rows, f, t);
        }
      }
    }
  }

  lemma RevokesKeepBreachedDead(rows: Table, family: FamilyId, now: int, why: Reason)
    requires BreachedAreDead(rows)
    ensures BreachedAreDead(RevokeLive(rows, family, now, why)) && NoLive(RevokeLive(rows, family, now, why), family)
    ensures BreachedAreDead(RevokeFamily(rows, family, now, why))
  {
    StampingTheDead(rows, RevokeLive(rows, family, now, why), family);
    StampingTheDead(rows, RevokeFamily(rows, family, now, why), family);
  }

  lemma AdvanceKeepsBreachedDead(s: State, c: CallId)
    requires Inv(s) && Clean(s) && c in s.calls
    ensures BreachedAreDead(Advanced(s, c).rows)
  {
    var call := s.calls[c];
    NextTokenIsUnused(s);
    match call.at
    case Claiming => BreachedStayDead(s.rows, Claim(s.rows, call.id, s.now));
    case Minting(subject) =>
      var minted := Insert(s.rows, s.nextToken, call.row.family, subject, s.now);
      if !Breached(minted, call.row.family) {
        MintIntoCleanFamily(s.rows, s.nextToken, call.row.family, subject, s.now);
      }
    case SigningOut => RevokesKeepBreachedDead(s.rows, call.row.family, s.now, Logout);
    case Stamping(_) => StampKeepsBreachedDead(s, c);
    case _ =>
  }

  /** The stamp finds its family without a live row. */
  lemma StampKeepsBreachedDead(s: State, c: CallId)
    requires Clean(s) && c in s.calls && s.calls[c].at.Stamping?
    ensures BreachedAreDead(Stamp(s.rows, s.calls[c].row.family))
  {
    var family := s.calls[c].row.family;
    assert StampPending(s, family, c);
    forall t ensures !LiveIn(Stamp(s.rows, family), family, t) {
      assert !LiveIn(s.rows, family, t);
    }
    StampingTheDead(s.rows, Stamp(s.rows, family), family);
  }

  lemma RevokingKeepsBreachedDead(s: State, step: Step)
    requires BreachedAreDead(s.rows) && (step.RevokeFirst? || step.RevokeWhole?)
    ensures BreachedAreDead(Next(s, step).rows)
  {
    if step.c in s.calls && s.calls[step.c].at.Revoking? {
      RevokesKeepBreachedDead(s.rows, s.calls[step.c].row.family, s.now, ReasonFor(s.calls[step.c].at.why));
    }
  }

  predicate WritesNoRow(step: Step) {
    step.Read? || step.SignOutRead? || step.StoreFails? || step.Crash? || step.SetDriver? || step.SetUser? ||
    step.LoadDriver? || step.LoadUser? || step.SaveCopy? || step.Tick?
  }

  lemma UnwrittenRows(s: State, step: Step)
    requires WritesNoRow(step)
    ensures Next(s, step).rows == s.rows
  {
  }

  lemma StepKeepsBreachedDead(s: State, step: Step)
    requires Inv(s) && Clean(s)
    ensures BreachedAreDead(Next(s, step).rows)
  {
    match step
    case Advance(c) => if c in s.calls { AdvanceKeepsBreachedDead(s, c); }
    case RevokeFirst(_) => RevokingKeepsBreachedDead(s, step);
    case RevokeWhole(_) => RevokingKeepsBreachedDead(s, step);
    case SignIn(subject) => SignInStaysClean(s, subject);
    case RevokeAll(subject) => BreachedStayDead(s.rows, RevokeSubject(s.rows, subject, s.now));
    case Sweep => BreachedStayDead(s.rows, Prune(s.rows, s.now));
    case _ => UnwrittenRows(s, step);
  }

  // ----- the families with a stamp pending -----

  /** The row a mint inserts is not stamped, so its breach check reads the rows that were there. */
  lemma MintCommitsExactly(s: State, c: CallId)
    requires Inv(s) && c in s.calls && s.calls[c].at.Minting?
    ensures Next(s, Advance(c)).calls[c].at == Returned(Committed) <==> Commits(s, Advance(c))
    ensures Commits(s, Advance(c)) <==> LiveIn(Next(s, Advance(c)).rows, s.calls[c].row.family, s.nextToken)
  {
    var family := s.calls[c].row.family;
    var minted := Insert(s.rows, s.nextToken, family, s.calls[c].at.subject, s.now);
    NextTokenIsUnused(s);
    if Breached(s.rows, family) {
      var e :| e in s.rows && s.rows[e].family == family && s.rows[e].reason == Some(ReuseDetected);
      assert minted[e] == s.rows[e];
    }
    assert Next(s, Advance(c)) == Mint(s, c, s.calls[c].at.subject);
  }

  /** A row that comes to life in a family that was there comes from a mint that commits. */
  lemma LifeIsCommitted(s: State, step: Step, family: FamilyId, t: TokenId)
    requires Inv(s) && FamilyOk(s, family) && NoLive(s.rows, family) && LiveIn(Next(s, step).rows, family, t)
    ensures Commits(s, step) && s.calls[step.c].row.family == family
  {
    NextTokenIsUnused(s);
    assert !LiveIn(s.rows, family, t);
    if t == s.nextToken {
      NextTokenComesFromMints(s, step);
      if s.calls[step.c].at.Minting? { MintCommitsExactly(s, step.c); }
    } else {
      NothingIsRevived(s, step, t);
    }
  }

  lemma PendingStaysDead(s: State, step: Step, family: FamilyId, c: CallId)
    requires Inv(s) && Clean(s) && !MintUnderStamp(s, step) && StampPending(s, family, c)
    ensures NoLive(Next(s, step).rows, family)
  {
    assert CallOk(s, s.calls[c]);
    forall t ensures !LiveIn(Next(s, step).rows, family, t) {
      if LiveIn(Next(s, step).rows, family, t) {
        LifeIsCommitted(s, step, family, t);
        assert MintUnderStamp(s, step);
      }
    }
  }

  lemma AdvanceNeverStamps(s: State, c: CallId)
    requires c in s.calls && !BetweenTheUpdates(s.calls[c].at)
    ensures !BetweenTheUpdates(Advanced(s, c).calls[c].at)
  {
    match s.calls[c].at
    case Claiming =>
    case Minting(_) =>
    case _ =>
  }

  lemma StoppingStaysPut(s: State, c: CallId)
    requires c in s.calls
    ensures BetweenTheUpdates(Next(s, Crash(c)).calls[c].at) <==> BetweenTheUpdates(s.calls[c].at)
  {
  }

  /** Only the first UPDATE of a reuse revoke leaves a stamp pending, and it leaves no live row. */
  lemma NewPendingIsDead(s: State, step: Step, family: FamilyId, c: CallId)
    requires StampPending(Next(s, step), family, c) && !StampPending(s, family, c)
    ensures step == RevokeFirst(c) && NoLive(Next(s, step).rows, family)
  {
    if c !in s.calls {
      NewCallsOnlyRead(s, step, c);
    } else {
      ReadsAreKept(s, step, c);
      if !Moves(step, c) {
        OtherCallsStay(s, step, c);
      } else if step.Advance? {
        AdvanceNeverStamps(s, c);
      } else if step.Crash? {
        StoppingStaysPut(s, c);
      }
    }
  }

  lemma MintUnderStampShows(s: State, step: Step)
    requires Inv(s) && MintUnderStamp(s, step)
    ensures !Clean(Next(s, step))
  {
    var family := s.calls[step.c].row.family;
    var d :| StampPending(s, family, d);
    OtherCallsStay(s, step, d);
    MintCommitsExactly(s, step.c);
    assert StampPending(Next(s, step), family, d);
    assert LiveIn(Next(s, step).rows, family, s.nextToken);
  }

  /**
   * From a state in which families with a stamped row, or a stamp pending,
   * have no live row, a step keeps that so if and only if it is not a mint into
   * a family without a stamped row whose reuse revoke is, or stopped for good,
   * between its two UPDATEs.
   */
  lemma StepStaysCleanExactly(s: State, step: Step)
    requires Inv(s) && Clean(s)
    ensures Clean(Next(s, step)) <==> !MintUnderStamp(s, step)
  {
    if MintUnderStamp(s, step) {
      MintUnderStampShows(s, step);
    } else {
      StepKeepsBreachedDead(s, step);
      forall family, c | StampPending(Next(s, step), family, c) ensures NoLive(Next(s, step).rows, family) {
        if StampPending(s, family, c) {
          PendingStaysDead(s, step, family, c);
        } else {
          NewPendingIsDead(s, step, family, c);
        }
      }
    }
  }

  /** No mint of the run commits between the two UPDATEs of a reuse revoke of its family. */
  ghost predicate NoMintUnderStamp(s: State, steps: seq<Step>) {
    steps == [] || (&& NoMintUnderStamp(s, steps[..|steps| - 1])
                    && !MintUnderStamp(Run(s, steps[..|steps| - 1]), steps[|steps| - 1]))
  }

  /** With each family revoke done as one step, no stamp is ever pending. */
  lemma {:induction false} WholeRevokesLeaveNoStamp(steps: seq<Step>)
    requires forall i :: 0 <= i < |steps| ==> !steps[i].RevokeFirst?
    ensures NoMintUnderStamp(INITIAL, steps)
    ensures forall family, c :: !StampPending(Run(INITIAL, steps), family, c)
  {
    if steps != [] {
      var front, last := steps[..|steps| - 1], steps[|steps| - 1];
      WholeRevokesLeaveNoStamp(front);
      forall family, c ensures !StampPending(Run(INITIAL, steps), family, c) {
        if StampPending(Run(INITIAL, steps), family, c) { NewPendingIsDead(Run(INITIAL, front), last, family, c); }
      }
    }
  }

  /**
   * A breached family never has a live row, in any interleaving in which no
   * mint commits between the two UPDATEs of a reuse revoke of its family; and
   * so in every interleaving, were each family revoke one step.
   */
  lemma {:induction false} BreachLeavesNothingLive(steps: seq<Step>)
    ensures NoMintUnderStamp(INITIAL, steps) ==> Clean(Run(INITIAL, steps))
    ensures (forall i :: 0 <= i < |steps| ==> !steps[i].RevokeFirst?) ==> Clean(Run(INITIAL, steps))
  {
    if steps != [] && NoMintUnderStamp(INITIAL, steps) {
      var front, last := steps[..|steps| - 1], steps[|steps| - 1];
      BreachLeavesNothingLive(front);
      RunKeepsInv(INITIAL, front);
      StepStaysCleanExactly(Run(INITIAL, front), last);
    }
    if forall i :: 0 <= i < |steps| ==> !steps[i].RevokeFirst? { WholeRevokesLeaveNoStamp(steps); }
  }
}
