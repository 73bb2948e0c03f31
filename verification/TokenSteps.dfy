/** What one step of the session protocol leaves alone, and how runs compose. */
module TokenSteps {
  import opened RefreshTokens
  import opened TokenProtocol

  // ----- runs -----

  lemma Then(s: State, steps: seq<Step>, step: Step)
    ensures Run(s, steps + [step]) == Next(Run(s, steps), step)
  {
    assert (steps + [step])[..|steps|] == steps;
  }

  ghost predicate CanReach(s: State, after: State) {
    exists steps :: Run(s, steps) == after
  }

  lemma ReachesItself(s: State)
    ensures CanReach(s, s)
  {
    assert Run(s, []) == s;
  }

  lemma ReachesNext(s: State, between: State, step: Step)
    requires CanReach(s, between)
    ensures CanReach(s, Next(between, step))
  {
    var steps :| Run(s, steps) == between;
    Then(s, steps, step);
  }

  lemma {:induction false} RunOn(s: State, steps: seq<Step>, more: seq<Step>)
    ensures Run(s, steps + more) == Run(Run(s, steps), more)
  {
    if more == [] {
      assert steps + more == steps;
    } else {
      RunOn(s, steps, more[..|more| - 1]);
      assert (steps + more)[..|steps + more| - 1] == steps + more[..|more| - 1];
    }
  }

  lemma ReachesOn(s: State, between: State, after: State)
    requires CanReach(s, between) && CanReach(between, after)
    ensures CanReach(s, after)
  {
    var steps :| Run(s, steps) == between;
    var more :| Run(between, more) == after;
    RunOn(s, steps, more);
  }

  // ----- calls -----

  /** The call a step moves; every other call stays as it was. */
  predicate Moves(step: Step, c: CallId) {
    match step
    case Advance(d) => c == d
    case RevokeFirst(d) => c == d
    case RevokeWhole(d) => c == d
    case StoreFails(d) => c == d
    case Crash(d) => c == d
    case _ => false
  }

  lemma AdvanceMovesOne(s: State, c: CallId, d: CallId)
    requires c in s.calls && d in s.calls
    ensures Advanced(s, c).calls[d].id == s.calls[d].id && Advanced(s, c).calls[d].row == s.calls[d].row
    ensures c != d ==> Advanced(s, c).calls[d] == s.calls[d]
  {
    match s.calls[c].at
    case Claiming =>
    case Minting(_) =>
    case _ =>
  }

  lemma OtherCallsStay(s: State, step: Step, c: CallId)
    requires c in s.calls && !Moves(step, c)
    ensures c in Next(s, step).calls && Next(s, step).calls[c] == s.calls[c]
  {
    match step
    case Advance(d) => if d in s.calls { AdvanceMovesOne(s, d, c); }
    case SignIn(_) =>
    case RevokeAll(_) =>
    case Sweep =>
    case _ =>
  }

  /** A call never forgets which token it presented, nor the row as it first read it. */
  lemma ReadsAreKept(s: State, step: Step, c: CallId)
    requires c in s.calls
    ensures c in Next(s, step).calls
    ensures Next(s, step).calls[c].id == s.calls[c].id && Next(s, step).calls[c].row == s.calls[c].row
  {
    if !Moves(step, c) {
      OtherCallsStay(s, step, c);
    } else if step.Advance? {
      AdvanceMovesOne(s, c, c);
    }
  }

  /** A new call has only read its row. */
  lemma NewCallsOnlyRead(s: State, step: Step, c: CallId)
    requires c !in s.calls && c in Next(s, step).calls
    ensures Next(s, step).rows == s.rows && Next(s, step).now == s.now
    ensures var call := Next(s, step).calls[c];
            && call.id in s.rows && call.row == s.rows[call.id] && (call.at.Checking? || call.at.SigningOut?)
  {
    match step
    case Read(_, t) => assert Next(s, step) == Begun(s, c, t, Checking);
    case SignOutRead(_, t) => assert Next(s, step) == Begun(s, c, t, SigningOut);
    case _ =>
  }

  /** The step is the conditional UPDATE of this call, and affects its row. */
  predicate Claims(s: State, step: Step, c: CallId) {
    step == Advance(c) && c in s.calls && s.calls[c].at.Claiming? && IsLive(s.rows, s.calls[c].id)
  }

  lemma AdvanceRemembersClaims(s: State, c: CallId)
    requires c in s.calls
    ensures Won(Advanced(s, c).calls[c]) <==> Won(s.calls[c]) || Claims(s, Advance(c), c)
  {
    match s.calls[c].at
    case Minting(_) =>
    case Claiming =>
    case _ =>
  }

  /**
   * A call counts as having claimed its token from its successful UPDATE on,
   * and for good: not before, and whatever becomes of it afterwards.
   */
  lemma ClaimsAreRemembered(s: State, step: Step, c: CallId)
    requires c in Next(s, step).calls
    ensures Won(Next(s, step).calls[c]) <==> (c in s.calls && Won(s.calls[c])) || Claims(s, step, c)
  {
    if c !in s.calls {
      NewCallsOnlyRead(s, step, c);
    } else if !Moves(step, c) {
      OtherCallsStay(s, step, c);
    } else if step.Advance? {
      AdvanceRemembersClaims(s, c);
    }
  }

  // ----- rows -----

  lemma NextTokenIsUnused(s: State)
    requires Inv(s)
    ensures s.nextToken !in s.rows
  {
  }

  lemma AdvanceRevivesNothing(s: State, c: CallId, t: TokenId)
    requires c in s.calls && t != s.nextToken && t in Advanced(s, c).rows
    ensures t in s.rows && Advanced(s, c).rows[t].family == s.rows[t].family
    ensures Advanced(s, c).rows[t].subject == s.rows[t].subject
    ensures Advanced(s, c).rows[t].expiresAt == s.rows[t].expiresAt
    ensures Advanced(s, c).rows[t].Live() ==> s.rows[t].Live()
  {
    match s.calls[c].at
    case Minting(_) =>
    case _ =>
  }

  /**
   * No step revives a row, or moves it to another family, subject or expiry; a
   * sign-in or a mint adds the next token only.
   */
  lemma NothingIsRevived(s: State, step: Step, t: TokenId)
    requires t != s.nextToken && t in Next(s, step).rows
    ensures t in s.rows && Next(s, step).rows[t].family == s.rows[t].family
    ensures Next(s, step).rows[t].subject == s.rows[t].subject
    ensures Next(s, step).rows[t].expiresAt == s.rows[t].expiresAt
    ensures Next(s, step).rows[t].Live() ==> s.rows[t].Live()
  {
    if step.Advance? && step.c in s.calls { AdvanceRevivesNothing(s, step.c, t); }
  }

  lemma TimeGoesOn(s: State, step: Step)
    ensures Next(s, step).now >= s.now
  {
    if step.Advance? && step.c in s.calls {
      match s.calls[step.c].at
      case Minting(_) =>
      case _ =>
    }
  }

  // ----- every copy of a row agrees on what never changes in it -----

  predicate CopyAgrees(rows: Table, call: Call) {
    call.id in rows ==> rows[call.id].family == call.row.family && rows[call.id].expiresAt == call.row.expiresAt
  }

  predicate SameCopy(call: Call, other: Call) {
    call.id == other.id ==> call.row.family == other.row.family && call.row.expiresAt == other.row.expiresAt
  }

  /** Calls that presented one token agree on its family and expiry, and so does its row while it is there. */
  ghost predicate ReadsAgree(s: State) {
    && (forall c :: c in s.calls ==> CopyAgrees(s.rows, s.calls[c]))
    && (forall c, d :: c in s.calls && d in s.calls ==> SameCopy(s.calls[c], s.calls[d]))
  }

  lemma StepKeepsCopy(s: State, step: Step, c: CallId)
    requires Inv(s) && ReadsAgree(s) && c in Next(s, step).calls
    ensures CopyAgrees(Next(s, step).rows, Next(s, step).calls[c])
  {
    if c !in s.calls {
      NewCallsOnlyRead(s, step, c);
    } else {
      ReadsAreKept(s, step, c);
      assert CallOk(s, s.calls[c]) && CopyAgrees(s.rows, s.calls[c]);
      if s.calls[c].id in Next(s, step).rows { NothingIsRevived(s, step, s.calls[c].id); }
    }
  }

  lemma AtMostOneIsNew(s: State, step: Step, c: CallId, d: CallId)
    requires c !in s.calls && d !in s.calls && c in Next(s, step).calls && d in Next(s, step).calls
    ensures c == d
  {
  }

  lemma StepKeepsPair(s: State, step: Step, c: CallId, d: CallId)
    requires ReadsAgree(s) && c in Next(s, step).calls && d in s.calls && d in Next(s, step).calls
    ensures SameCopy(Next(s, step).calls[c], Next(s, step).calls[d])
  {
    ReadsAreKept(s, step, d);
    assert CopyAgrees(s.rows, s.calls[d]);
    if c in s.calls {
      ReadsAreKept(s, step, c);
      assert SameCopy(s.calls[c], s.calls[d]);
    } else {
      NewCallsOnlyRead(s, step, c);
    }
  }

  lemma StepKeepsReads(s: State, step: Step)
    requires Inv(s) && ReadsAgree(s)
    ensures ReadsAgree(Next(s, step))
  {
    var after := Next(s, step);
    forall c | c in after.calls ensures CopyAgrees(after.rows, after.calls[c]) {
      StepKeepsCopy(s, step, c);
    }
    forall c, d | c in after.calls && d in after.calls ensures SameCopy(after.calls[c], after.calls[d]) {
      if d in s.calls {
        StepKeepsPair(s, step, c, d);
      } else if c in s.calls {
        StepKeepsPair(s, step, d, c);
      } else {
        AtMostOneIsNew(s, step, c, d);
      }
    }
  }

  lemma {:induction false} RunKeepsReads(steps: seq<Step>)
    ensures Inv(Run(INITIAL, steps)) && ReadsAgree(Run(INITIAL, steps))
  {
    if steps != [] {
      RunKeepsReads(steps[..|steps| - 1]);
      RunKeepsInv(INITIAL, steps);
      StepKeepsReads(Run(INITIAL, steps[..|steps| - 1]), steps[|steps| - 1]);
    }
  }
}
