/** Whom a session is for: its account never changes, and its role is read afresh at every exchange. */
module TokenRoles {
  import opened Prelude
  import opened RefreshTokens
  import opened TokenProtocol
  import opened TokenSteps
  import opened TokenSuspension

  /** The same driver, or the same row of the users table. */
  predicate SameAccount(x: Subject, y: Subject) {
    x.id == y.id && (x.role == Driver <==> y.role == Driver)
  }

  // ----- one exchange -----

  /**
   * The resolve step lets an account pass exactly when it is in order, as the
   * account it is, and for a user with the role the users table gives it at
   * that step, whatever role the presented token had.
   */
  lemma ResolvesExactly(s: State, c: CallId)
    requires c in s.calls && s.calls[c].at.Resolving?
    ensures var subject, at := s.calls[c].row.subject, Next(s, Advance(c)).calls[c].at;
            && (if Suspended(s, subject) then at == Revoking(SubjectGone) else at.Minting?)
            && (at.Minting? ==>
                  && SameAccount(at.subject, subject)
                  && (subject.role != Driver ==>
                        (at.subject.role == Admin <==> s.accounts.users[subject.id].admin)))
            && Next(s, Advance(c)) == s.(calls := s.calls[c := s.calls[c].(at := at)])
  {
    assert Next(s, Advance(c)) == ResolveSubject(s, c);
  }

  /** The call is about to mint for exactly this account and role. */
  predicate MintingAs(call: Call, subject: Subject) {
    call.at.Minting? && call.at.subject == subject
  }

  /** The step commits a token for this account and role out of a rotation. */
  predicate MintsAs(s: State, step: Step, subject: Subject) {
    && step.Advance? && step.c in s.calls && MintingAs(s.calls[step.c], subject)
    && Next(s, step).calls[step.c].at == Returned(Committed)
  }

  /** It is live, of the family of the token it replaces, and good for thirty days. */
  lemma MintWritesTheSession(s: State, step: Step, subject: Subject)
    requires MintsAs(s, step, subject)
    ensures var family := s.calls[step.c].row.family;
            Next(s, step).rows
            == s.rows[s.nextToken := RefreshToken(family, subject, s.now + 30 * 86_400_000, None, None)]
  {
    assert Next(s, step) == Mint(s, step.c, subject);
  }

  /** And no other step makes a call return with a new session. */
  lemma OnlyMintsCommit(s: State, step: Step, c: CallId)
    requires c in Next(s, step).calls && Next(s, step).calls[c].at == Returned(Committed)
    ensures c in s.calls
    ensures s.calls[c].at != Returned(Committed) ==>
              step == Advance(c) && s.calls[c].at.Minting? && MintsAs(s, step, s.calls[c].at.subject)
  {
    if c !in s.calls {
      NewCallsOnlyRead(s, step, c);
    } else if !Moves(step, c) {
      OtherCallsStay(s, step, c);
    } else if step.Advance? {
      match s.calls[c].at
      case Minting(_) =>
      case Claiming =>
      case _ =>
    }
  }

  // ----- a demoted administrator -----

  predicate IsAdmin(s: State, id: nat) {
    id in s.accounts.users && s.accounts.users[id].admin
  }

  /** The step saves the user's row as an administrator's: on purpose, or as an earlier read showed it. */
  predicate Promotes(s: State, step: Step, id: nat) {
    match step
    case SetUser(user, account) => user == id && account.Some? && account.value.admin
    case SaveCopy(c) =>
      && c in s.accounts.copies && s.accounts.copies[c].UserCopy?
      && s.accounts.copies[c].user == id && s.accounts.copies[c].account.admin
    case _ => false
  }

  lemma StepKeepsDemotionExactly(s: State, step: Step, id: nat)
    requires !IsAdmin(s, id)
    ensures IsAdmin(Next(s, step), id) <==> Promotes(s, step, id)
  {
    if step.Advance? && step.c in s.calls { AdvanceSparesAccounts(s, step.c); }
  }

  predicate NeverPromoted(s: State, steps: seq<Step>, id: nat) {
    steps == [] || (&& NeverPromoted(s, steps[..|steps| - 1], id)
                    && !Promotes(Run(s, steps[..|steps| - 1]), steps[|steps| - 1], id))
  }

  lemma {:induction false} StaysDemoted(s: State, steps: seq<Step>, id: nat)
    requires !IsAdmin(s, id) && NeverPromoted(s, steps, id)
    ensures !IsAdmin(Run(s, steps), id)
  {
    if steps != [] {
      StaysDemoted(s, steps[..|steps| - 1], id);
      StepKeepsDemotionExactly(Run(s, steps[..|steps| - 1]), steps[|steps| - 1], id);
    }
  }

  function PastResolveAs(s: State, subject: Subject): set<CallId> {
    set c | c in s.calls && MintingAs(s.calls[c], subject)
  }

  function TokensMintedAs(s: State, steps: seq<Step>, subject: Subject): nat {
    if steps == [] then 0
    else
      var front, last := steps[..|steps| - 1], steps[|steps| - 1];
      TokensMintedAs(s, front, subject) + if MintsAs(Run(s, front), last, subject) then 1 else 0
  }

  lemma DemotedResolvesAsUser(s: State, c: CallId, id: nat)
    requires c in s.calls && !IsAdmin(s, id)
    ensures !MintingAs(Advanced(s, c).calls[c], Subject(id, Admin))
  {
    match s.calls[c].at
    case Resolving => ResolvesExactly(s, c);
    case Minting(resolved) => MintMovesOn(s, c, resolved);
    case Claiming =>
    case _ =>
  }

  lemma NoNewAdminMinters(s: State, step: Step, id: nat, c: CallId)
    requires !IsAdmin(s, id) && c in PastResolveAs(Next(s, step), Subject(id, Admin))
    ensures c in PastResolveAs(s, Subject(id, Admin)) && !(MintsAs(s, step, Subject(id, Admin)) && step.c == c)
  {
    if c !in s.calls {
      NewCallsOnlyRead(s, step, c);
    } else if !Moves(step, c) {
      OtherCallsStay(s, step, c);
    } else if step.Advance? {
      DemotedResolvesAsUser(s, c, id);
    }
  }

  lemma StepSpendsAdminMinters(s: State, step: Step, id: nat)
    requires !IsAdmin(s, id)
    ensures var admin := Subject(id, Admin);
            |PastResolveAs(Next(s, step), admin)| + (if MintsAs(s, step, admin) then 1 else 0)
            <= |PastResolveAs(s, admin)|
  {
    var admin := Subject(id, Admin);
    var before, after := PastResolveAs(s, admin), PastResolveAs(Next(s, step), admin);
    forall c | c in after ensures c in before && !(MintsAs(s, step, admin) && step.c == c) {
      NoNewAdminMinters(s, step, id, c);
    }
    if MintsAs(s, step, admin) {
      SubsetCardinality(after, before - {step.c});
    } else {
      SubsetCardinality(after, before);
    }
  }

  /**
   * From the moment a demotion is saved until a save undoes it, rotations mint
   * at most one administrator's token for each call already past the resolve
   * step: none at all when calls are atomic.
   */
  lemma {:induction false} DemotionStopsAdminMints(s: State, steps: seq<Step>, id: nat)
    requires !IsAdmin(s, id) && NeverPromoted(s, steps, id)
    ensures TokensMintedAs(s, steps, Subject(id, Admin)) + |PastResolveAs(Run(s, steps), Subject(id, Admin))|
            <= |PastResolveAs(s, Subject(id, Admin))|
  {
    if steps != [] {
      var front, last := steps[..|steps| - 1], steps[|steps| - 1];
      DemotionStopsAdminMints(s, front, id);
      StaysDemoted(s, front, id);
      StepSpendsAdminMinters(Run(s, front), last, id);
    }
  }

  // ----- a suspended account's tokens -----

  /** What an administrator writes of an account is what holds of it. */
  lemma WritesTakeEffect(s: State, id: nat, active: Option<bool>, account: Option<Account>)
    ensures Suspended(Next(s, SetDriver(id, active)), Subject(id, Driver)) <==> active != Some(true)
    ensures Suspended(Next(s, SetUser(id, account)), Subject(id, User)) <==> account.None? || account.value.blocked
    ensures IsAdmin(Next(s, SetUser(id, account)), id) <==> account.Some? && account.value.admin
  {
  }

  function LiveTokens(s: State, subject: Subject): set<TokenId> {
    set t | t in s.rows && s.rows[t].Live() && s.rows[t].subject == subject
  }

  lemma SuspendedMintsForNobody(s: State, c: CallId, subject: Subject)
    requires c in s.calls && Suspended(s, subject)
    ensures !MintingAs(Advanced(s, c).calls[c], subject)
  {
    match s.calls[c].at
    case Resolving => ResolvesExactly(s, c);
    case Minting(resolved) => MintMovesOn(s, c, resolved);
    case Claiming =>
    case _ =>
  }

  lemma NoNewMintersAs(s: State, step: Step, subject: Subject, c: CallId)
    requires Suspended(s, subject) && c in PastResolveAs(Next(s, step), subject)
    ensures c in PastResolveAs(s, subject) && !(MintsAs(s, step, subject) && step.c == c)
  {
    if c !in s.calls {
      NewCallsOnlyRead(s, step, c);
    } else if !Moves(step, c) {
      OtherCallsStay(s, step, c);
    } else if step.Advance? {
      SuspendedMintsForNobody(s, c, subject);
    }
  }

  /** A live token of the account was live before, or a mint just put it there. */
  lemma LiveTokensOnlyGoOrMint(s: State, step: Step, subject: Subject, t: TokenId)
    requires Inv(s) && step != SignIn(subject) && t in LiveTokens(Next(s, step), subject)
    ensures t in LiveTokens(s, subject) || (t == s.nextToken && MintsAs(s, step, subject))
  {
    NextTokenIsUnused(s);
    if t != s.nextToken {
      NothingIsRevived(s, step, t);
    } else if step.Advance? && step.c in s.calls && s.calls[step.c].at.Minting? {
      assert Next(s, step) == Mint(s, step.c, s.calls[step.c].at.subject);
    } else if !step.SignIn? {
      OnlyMintsInsert(s, step);
    }
  }

  lemma OnlyMintsInsert(s: State, step: Step)
    requires s.nextToken !in s.rows && !step.SignIn?
    requires step.Advance? && step.c in s.calls ==> !s.calls[step.c].at.Minting?
    ensures s.nextToken !in Next(s, step).rows
  {
  }

  lemma StepSpendsTokens(s: State, step: Step, subject: Subject)
    requires Inv(s) && Suspended(s, subject) && step != SignIn(subject)
    ensures |LiveTokens(Next(s, step), subject)| + |PastResolveAs(Next(s, step), subject)|
            <= |LiveTokens(s, subject)| + |PastResolveAs(s, subject)|
  {
    var before, after := PastResolveAs(s, subject), PastResolveAs(Next(s, step), subject);
    var live, stillLive := LiveTokens(s, subject), LiveTokens(Next(s, step), subject);
    forall c | c in after ensures c in before && !(MintsAs(s, step, subject) && step.c == c) {
      NoNewMintersAs(s, step, subject, c);
    }
    forall t | t in stillLive ensures t in live || (t == s.nextToken && MintsAs(s, step, subject)) {
      LiveTokensOnlyGoOrMint(s, step, subject, t);
    }
    if MintsAs(s, step, subject) {
      SubsetCardinality(after, before - {step.c});
      SubsetCardinality(stillLive, live + {s.nextToken});
    } else {
      SubsetCardinality(after, before);
      SubsetCardinality(stillLive, live);
    }
  }

  predicate NoSignIn(steps: seq<Step>, subject: Subject) {
    forall i :: 0 <= i < |steps| ==> steps[i] != SignIn(subject)
  }

  lemma {:induction false} RunSpendsTokens(s: State, later: seq<Step>, subject: Subject)
    requires Inv(s) && Suspended(s, subject) && NeverReinstated(s, later, subject) && NoSignIn(later, subject)
    ensures Inv(Run(s, later)) && Suspended(Run(s, later), subject)
    ensures |LiveTokens(Run(s, later), subject)| + |PastResolveAs(Run(s, later), subject)|
            <= |LiveTokens(s, subject)| + |PastResolveAs(s, subject)|
  {
    if later != [] {
      var front, last := later[..|later| - 1], later[|later| - 1];
      RunSpendsTokens(s, front, subject);
      StepKeepsInv(Run(s, front), last);
      StepKeepsSuspensionExactly(Run(s, front), last, subject);
      StepSpendsTokens(Run(s, front), last, subject);
    }
  }

  /**
   * Suspending an account ends its sessions: once the suspension is saved and
   * its tokens are revoked, then until it is undone or signs in again it has at
   * most one live token for each call that was already past the resolve step.
   */
  lemma SuspensionEndsTheSessions(steps: seq<Step>, later: seq<Step>, subject: Subject)
    requires var s := Run(INITIAL, steps);
             && Suspended(s, subject)
             && NeverReinstated(Next(s, RevokeAll(subject)), later, subject) && NoSignIn(later, subject)
    ensures var s := Run(INITIAL, steps);
            |LiveTokens(Run(Next(s, RevokeAll(subject)), later), subject)| <= |PastResolveAs(s, subject)|
  {
    var s := Run(INITIAL, steps);
    var revoked := Next(s, RevokeAll(subject));
    RunKeepsInv(INITIAL, steps);
    StepKeepsInv(s, RevokeAll(subject));
    assert LiveTokens(revoked, subject) == {};
    assert PastResolveAs(revoked, subject) == PastResolveAs(s, subject);
    RunSpendsTokens(revoked, later, subject);
  }

  // ----- every session -----

  predicate RowNames(s: State, t: TokenId, family: FamilyId, subject: Subject) {
    t in s.rows && s.rows[t].family == family && s.rows[t].subject == subject
  }

  predicate CallNames(s: State, c: CallId, family: FamilyId, subject: Subject) {
    && c in s.calls && s.calls[c].row.family == family
    && (s.calls[c].row.subject == subject || MintingAs(s.calls[c], subject))
  }

  /** A token of the family, a call's copy of one, or a mint under way is for this subject. */
  ghost predicate Names(s: State, family: FamilyId, subject: Subject) {
    (exists t :: RowNames(s, t, family, subject)) || (exists c :: CallNames(s, c, family, subject))
  }

  ghost predicate OneAccountEach(s: State) {
    forall family, x, y :: Names(s, family, x) && Names(s, family, y) ==> SameAccount(x, y)
  }

  /** What names the subject after a step descends from what named the account before it. */
  ghost predicate Descends(s: State, family: FamilyId, subject: Subject) {
    exists y :: Names(s, family, y) && SameAccount(subject, y)
  }

  lemma RowDescends(s: State, t: TokenId, family: FamilyId, subject: Subject)
    requires RowNames(s, t, family, subject)
    ensures Descends(s, family, subject)
  {
    assert Names(s, family, subject) && SameAccount(subject, subject);
  }

  lemma CallDescends(s: State, c: CallId, family: FamilyId, subject: Subject, y: Subject)
    requires CallNames(s, c, family, y) && SameAccount(subject, y)
    ensures Descends(s, family, subject)
  {
    assert Names(s, family, y);
  }

  lemma NewTokensDescend(s: State, step: Step, family: FamilyId, subject: Subject)
    requires RowNames(Next(s, step), s.nextToken, family, subject) && s.nextToken !in s.rows
    ensures Descends(s, family, subject) || (step.SignIn? && family == s.nextFamily && subject == step.subject)
  {
    if step.Advance? && step.c in s.calls && s.calls[step.c].at.Minting? {
      assert Next(s, step) == Mint(s, step.c, s.calls[step.c].at.subject);
      CallDescends(s, step.c, family, subject, subject);
    } else if !step.SignIn? {
      OnlyMintsInsert(s, step);
    }
  }

  lemma RowsDescend(s: State, step: Step, t: TokenId, family: FamilyId, subject: Subject)
    requires Inv(s) && RowNames(Next(s, step), t, family, subject)
    ensures Descends(s, family, subject) || (step.SignIn? && family == s.nextFamily && subject == step.subject)
  {
    NextTokenIsUnused(s);
    if t == s.nextToken {
      NewTokensDescend(s, step, family, subject);
    } else {
      NothingIsRevived(s, step, t);
      RowDescends(s, t, family, subject);
    }
  }

  lemma MintersDescend(s: State, step: Step, c: CallId, subject: Subject)
    requires c in s.calls && c in Next(s, step).calls && MintingAs(Next(s, step).calls[c], subject)
    ensures Descends(s, s.calls[c].row.family, subject)
  {
    var family := s.calls[c].row.family;
    if !Moves(step, c) {
      OtherCallsStay(s, step, c);
      CallDescends(s, c, family, subject, subject);
    } else if step.Advance? {
      match s.calls[c].at
      case Resolving =>
        ResolvesExactly(s, c);
        CallDescends(s, c, family, subject, s.calls[c].row.subject);
      case Minting(resolved) => MintMovesOn(s, c, resolved);
      case Claiming =>
      case _ =>
    } else {
      CallDescends(s, c, family, subject, subject);
    }
  }

  lemma CallsDescend(s: State, step: Step, c: CallId, family: FamilyId, subject: Subject)
    requires CallNames(Next(s, step), c, family, subject)
    ensures Descends(s, family, subject)
  {
    if c !in s.calls {
      NewCallsOnlyRead(s, step, c);
      RowDescends(s, Next(s, step).calls[c].id, family, subject);
    } else {
      ReadsAreKept(s, step, c);
      if s.calls[c].row.subject == subject {
        CallDescends(s, c, family, subject, subject);
      } else {
        MintersDescend(s, step, c, subject);
      }
    }
  }

  lemma FreshFamiliesAreNameless(s: State, subject: Subject)
    requires Inv(s)
    ensures !Names(s, s.nextFamily, subject)
  {
    forall t ensures !RowNames(s, t, s.nextFamily, subject) {
      assert t in s.rows ==> RowOk(s, t, s.rows[t]);
    }
    forall c ensures !CallNames(s, c, s.nextFamily, subject) {
      assert c in s.calls ==> CallOk(s, s.calls[c]);
    }
  }

  lemma NamesDescend(s: State, step: Step, family: FamilyId, subject: Subject)
    requires Inv(s) && Names(Next(s, step), family, subject)
    ensures Descends(s, family, subject) || (step.SignIn? && family == s.nextFamily && subject == step.subject)
  {
    var after := Next(s, step);
    if t :| RowNames(after, t, family, subject) {
      RowsDescend(s, step, t, family, subject);
    } else {
      var c :| CallNames(after, c, family, subject);
      CallsDescend(s, step, c, family, subject);
    }
  }

  lemma PairAgrees(s: State, step: Step, family: FamilyId, x: Subject, y: Subject)
    requires Inv(s) && OneAccountEach(s) && Names(Next(s, step), family, x) && Names(Next(s, step), family, y)
    ensures SameAccount(x, y)
  {
    NamesDescend(s, step, family, x);
    NamesDescend(s, step, family, y);
    if Descends(s, family, x) {
      var u :| Names(s, family, u) && SameAccount(x, u);
      if family == s.nextFamily { FreshFamiliesAreNameless(s, u); }
      var v :| Names(s, family, v) && SameAccount(y, v);
      assert SameAccount(u, v);
    } else if Descends(s, family, y) {
      var v :| Names(s, family, v) && SameAccount(y, v);
      FreshFamiliesAreNameless(s, v);
    }
  }

  lemma StepKeepsAccounts(s: State, step: Step)
    requires Inv(s) && OneAccountEach(s)
    ensures OneAccountEach(Next(s, step))
  {
    var after := Next(s, step);
    forall family, x, y | Names(after, family, x) && Names(after, family, y) ensures SameAccount(x, y) {
      PairAgrees(s, step, family, x, y);
    }
  }

  /**
   * In every interleaving a session stays with the account that signed in: all
   * tokens of a family, all copies calls hold of them and all mints under way
   * are for one driver, or for one row of the users table.
   */
  lemma {:induction false} SessionsNeverChangeHands(steps: seq<Step>)
    ensures OneAccountEach(Run(INITIAL, steps))
  {
    if steps != [] {
      SessionsNeverChangeHands(steps[..|steps| - 1]);
      RunKeepsInv(INITIAL, steps[..|steps| - 1]);
      StepKeepsAccounts(Run(INITIAL, steps[..|steps| - 1]), steps[|steps| - 1]);
    }
  }
}
