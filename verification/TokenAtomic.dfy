/** A call that runs with nothing in between does what the whole-call functions say. */
module TokenAtomic {
  import opened Prelude
  import opened RefreshTokens
  import opened TokenProtocol
  import Sessions

  /** Every step one rotation can take; the ones its path skips are disabled, and change nothing. */
  function Alone(s: State, c: CallId, t: TokenId): State {
    Next(AfterAdvances(Next(s, Read(c, t)), c), RevokeWhole(c))
  }

  function AfterAdvances(s: State, c: CallId): State {
    Next(Next(Next(Next(s, Advance(c)), Advance(c)), Advance(c)), Advance(c))
  }

  function Resolved(s: State, t: TokenId): Option<Subject> {
    if t in s.rows then Resolve(s.accounts, s.rows[t].subject) else None
  }

  /** A call that has returned, or is about to revoke, stays put when advanced. */
  lemma AdvanceIsDisabled(s: State, c: CallId)
    requires c in s.calls && (s.calls[c].at.Returned? || s.calls[c].at.Revoking?)
    ensures Next(s, Advance(c)) == s
  {
  }

  lemma AloneRefused(s: State, c: CallId, t: TokenId)
    requires c !in s.calls && t in s.rows && (!s.rows[t].Live() || s.rows[t].expiresAt <= s.now)
    ensures Alone(s, c, t).rows == Sessions.Rotate(s.rows, t, Resolved(s, t), s.now, s.nextToken).rows
    ensures c in Alone(s, c, t).calls
    ensures Alone(s, c, t).calls[c].at.Returned? && Alone(s, c, t).calls[c].at.outcome != Committed
  {
    var s2 := Next(Next(s, Read(c, t)), Advance(c));
    assert s2 == Check(Begun(s, c, t, Checking), c);
    AdvanceIsDisabled(s2, c);
  }

  lemma AloneClaims(s: State, c: CallId, t: TokenId)
    requires c !in s.calls && IsLive(s.rows, t) && s.rows[t].expiresAt > s.now
    ensures Next(Next(Next(s, Read(c, t)), Advance(c)), Advance(c))
            == s.(rows := Claim(s.rows, t, s.now), calls := s.calls[c := Call(t, s.rows[t], Resolving)])
  {
  }

  lemma ResolvedGone(s: State, c: CallId)
    requires c in s.calls && s.calls[c].at.Resolving? && Resolve(s.accounts, s.calls[c].row.subject).None?
    ensures Next(Next(s, Advance(c)), Advance(c)) == Goto(s, c, Revoking(SubjectGone))
  {
    assert Next(s, Advance(c)) == ResolveSubject(s, c) == Goto(s, c, Revoking(SubjectGone));
    AdvanceIsDisabled(Goto(s, c, Revoking(SubjectGone)), c);
  }

  lemma ResolvedMints(s: State, c: CallId)
    requires c in s.calls && s.calls[c].at.Resolving? && Resolve(s.accounts, s.calls[c].row.subject).Some?
    ensures var subject := Resolve(s.accounts, s.calls[c].row.subject).value;
            Next(Next(s, Advance(c)), Advance(c)) == Mint(Goto(s, c, Minting(subject)), c, subject)
  {
    assert Next(s, Advance(c)) == ResolveSubject(s, c);
  }

  /** A call about to revoke does so and returns; one that has returned stays put. */
  lemma RevokeIsLast(s: State, c: CallId)
    requires c in s.calls
    ensures Next(s, RevokeWhole(c)) == if s.calls[c].at.Revoking? then RevokedWhole(s, c, s.calls[c].at.why) else s
  {
  }

  /** From the claim on, when the subject is gone: the family is revoked. */
  lemma ClaimedGone(s: State, c: CallId)
    requires c in s.calls && s.calls[c].at.Resolving? && Resolve(s.accounts, s.calls[c].row.subject).None?
    ensures Next(Next(Next(s, Advance(c)), Advance(c)), RevokeWhole(c)) == RevokedWhole(s, c, SubjectGone)
  {
    ResolvedGone(s, c);
    RevokeIsLast(Goto(s, c, Revoking(SubjectGone)), c);
  }

  /** From the claim on, when the subject is there: the mint commits, or finds a breach and the family is revoked. */
  lemma ClaimedMints(s: State, c: CallId, subject: Subject)
    requires c in s.calls && s.calls[c].at.Resolving? && Resolve(s.accounts, s.calls[c].row.subject) == Some(subject)
    ensures var minted := Insert(s.rows, s.nextToken, s.calls[c].row.family, subject, s.now);
            Next(Next(Next(s, Advance(c)), Advance(c)), RevokeWhole(c))
            == if Breached(minted, s.calls[c].row.family) then RevokedWhole(s, c, Compromised)
               else MintCommits(s, c, minted)
  {
    ResolvedMints(s, c);
    RevokeIsLast(Mint(Goto(s, c, Minting(subject)), c, subject), c);
  }

  lemma AloneExchanges(s: State, c: CallId, t: TokenId)
    requires c !in s.calls && IsLive(s.rows, t) && s.rows[t].expiresAt > s.now
    ensures Alone(s, c, t).rows == Sessions.Rotate(s.rows, t, Resolved(s, t), s.now, s.nextToken).rows
    ensures c in Alone(s, c, t).calls && Alone(s, c, t).calls[c].at.Returned?
    ensures Alone(s, c, t).calls[c].at.outcome == Committed <==>
              Sessions.Rotate(s.rows, t, Resolved(s, t), s.now, s.nextToken).session.Some?
  {
    AloneClaims(s, c, t);
    var claimed := s.(rows := Claim(s.rows, t, s.now), calls := s.calls[c := Call(t, s.rows[t], Resolving)]);
    match Resolved(s, t)
    case None => ClaimedGone(claimed, c);
    case Some(subject) => ClaimedMints(claimed, c, subject);
  }

  /**
   * Run alone, the stepwise rotation leaves the table exactly as the whole
   * call does, and commits exactly when the whole call issues a session.
   */
  lemma AloneIsAtomic(s: State, c: CallId, t: TokenId)
    requires c !in s.calls
    ensures var whole := Sessions.Rotate(s.rows, t, Resolved(s, t), s.now, s.nextToken);
            && Alone(s, c, t).rows == whole.rows
            && (whole.session.Some? <==>
                  c in Alone(s, c, t).calls && Alone(s, c, t).calls[c].at == Returned(Committed))
  {
    if t in s.rows {
      if IsLive(s.rows, t) && s.rows[t].expiresAt > s.now {
        AloneExchanges(s, c, t);
      } else {
        AloneRefused(s, c, t);
      }
    }
  }

  /** So does a sign-out. */
  lemma SignOutIsAtomic(s: State, c: CallId, t: TokenId)
    requires c !in s.calls
    ensures Next(Next(s, SignOutRead(c, t)), Advance(c)).rows == Sessions.RevokeByToken(s.rows, t, s.now)
  {
  }
}
