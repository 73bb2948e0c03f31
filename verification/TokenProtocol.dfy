/**
 * Refresh, sign-out and revocation calls running at the same time.
 *
 * One SQL statement or one transaction is one step; between steps a call keeps
 * only its program counter and the row as it first read it. Calls that save a
 * whole driver or user row write back what they read of it. A disabled step
 * changes nothing.
 */
module TokenProtocol {
  import opened Prelude
  import opened RefreshTokens

  type CallId = nat

  /** Why a call revokes its family. */
  datatype Cause =
    | Replayed           // read a row consumed by an earlier rotation
    | LostRace           // the conditional UPDATE affected no row
    | SubjectGone
    | Compromised        // the breach check rolled the mint back

  /** Where a call stopped, if that was inside the revoke of its family. */
  datatype Stop = Elsewhere | BeforeRevoke(why: Cause) | BetweenUpdates(why: Cause)

  datatype Outcome =
    | Committed          // minted the next token
    | AlreadyRevoked     // read a row revoked for a reason other than rotation
    | Expired
    | Revoked(why: Cause)
    | StoreFailed        // the mint transaction failed for another reason
    | SignedOut
    | Crashed(claimed: bool, stop: Stop)   // stopped for good, before or after its claim

  /** Where a call stands: what its next step will do. */
  datatype Stage =
    | Checking
    | Claiming
    | Resolving
    | Minting(subject: Subject)
    | Revoking(why: Cause)
    | Stamping(why: Cause)
    | SigningOut
    | Returned(outcome: Outcome)

  /** A call in flight: the token it presented, its stale copy of the row, and its stage. */
  datatype Call = Call(id: TokenId, row: RefreshToken, at: Stage)

  datatype Account = Account(blocked: bool, admin: bool)

  /** What a call that will save a whole row back has read of the columns sessions depend on. */
  datatype RowCopy = DriverCopy(driver: nat, active: bool) | UserCopy(user: nat, account: Account)

  /** Which drivers are active, which users are blocked, and the copies of their rows that calls hold. */
  datatype Accounts = Accounts(
    drivers: map<nat, bool>,
    users: map<nat, Account>,
    copies: map<CallId, RowCopy>)

  /**
   * `chain` is history: the tokens of each family in the order they were
   * issued. Random identifiers never repeat: each is the next unused number.
   */
  datatype State = State(
    now: int,
    rows: Table,
    calls: map<CallId, Call>,
    nextToken: TokenId,
    nextFamily: FamilyId,
    chain: map<FamilyId, seq<TokenId>>,
    accounts: Accounts)

  datatype Step =
    | Read(c: CallId, token: TokenId)
    | SignOutRead(c: CallId, token: TokenId)
    | Advance(c: CallId)
    | RevokeFirst(c: CallId)        // revokeFamily up to and including its first UPDATE
    | RevokeWhole(c: CallId)        // revokeFamily as one step
    | StoreFails(c: CallId)
    | Crash(c: CallId)
    | SignIn(subject: Subject)
    | RevokeAll(subject: Subject)
    | SetDriver(id: nat, active: Option<bool>)
    | SetUser(id: nat, account: Option<Account>)
    | LoadDriver(c: CallId, id: nat)
    | LoadUser(c: CallId, id: nat)
    | SaveCopy(c: CallId)
    | Tick(ms: nat)
    | Sweep

  const INITIAL := State(0, map[], map[], 0, 0, map[], Accounts(map[], map[], map[]))

  /** The subject resolver of refreshSession. */
  function Resolve(accounts: Accounts, subject: Subject): Option<Subject> {
    if subject.role == Driver then
      if subject.id in accounts.drivers && accounts.drivers[subject.id] then Some(Subject(subject.id, Driver)) else None
    else if subject.id in accounts.users && !accounts.users[subject.id].blocked then
      Some(Subject(subject.id, if accounts.users[subject.id].admin then Admin else User))
    else None
  }

  function ReasonFor(why: Cause): Reason {
    if why == SubjectGone then SubjectUnavailable else ReuseDetected
  }

  function Goto(s: State, c: CallId, stage: Stage): State
    requires c in s.calls
  {
    s.(calls := s.calls[c := s.calls[c].(at := stage)])
  }

  function Check(s: State, c: CallId): State
    requires c in s.calls
  {
    var row := s.calls[c].row;
    Goto(s, c,
         if !row.Live() then
           if row.reason == Some(Rotated) then Revoking(Replayed) else Returned(AlreadyRevoked)
         else if row.expiresAt <= s.now then Returned(Expired)
         else Claiming)
  }

  function ClaimToken(s: State, c: CallId): State
    requires c in s.calls
  {
    if IsLive(s.rows, s.calls[c].id) then Goto(s, c, Resolving).(rows := Claim(s.rows, s.calls[c].id, s.now))
    else Goto(s, c, Revoking(LostRace))
  }

  function ResolveSubject(s: State, c: CallId): State
    requires c in s.calls
  {
    var resolved := Resolve(s.accounts, s.calls[c].row.subject);
    Goto(s, c, if resolved.Some? then Minting(resolved.value) else Revoking(SubjectGone))
  }

  function MintCommits(s: State, c: CallId, minted: Table): State
    requires c in s.calls
  {
    var family := s.calls[c].row.family;
    Goto(s, c, Returned(Committed)).(
      rows := minted,
      nextToken := s.nextToken + 1,
      chain := s.chain[family := (if family in s.chain then s.chain[family] else []) + [s.nextToken]])
  }

  /** INSERT, breach check, and rollback if it finds one: one transaction. */
  function Mint(s: State, c: CallId, subject: Subject): State
    requires c in s.calls
  {
    var family := s.calls[c].row.family;
    var minted := Insert(s.rows, s.nextToken, family, subject, s.now);
    if Breached(minted, family) then Goto(s, c, Revoking(Compromised)) else MintCommits(s, c, minted)
  }

  /** The next step of a call, unless it is about to revoke its family. */
  function Advanced(s: State, c: CallId): (after: State)
    requires c in s.calls
    ensures after.calls.Keys == s.calls.Keys
  {
    match s.calls[c].at
    case Checking => Check(s, c)
    case Claiming => ClaimToken(s, c)
    case Resolving => ResolveSubject(s, c)
    case Minting(subject) => Mint(s, c, subject)
    case Stamping(why) => Goto(s, c, Returned(Revoked(why))).(rows := Stamp(s.rows, s.calls[c].row.family))
    case SigningOut =>
      Goto(s, c, Returned(SignedOut)).(rows := RevokeLive(s.rows, s.calls[c].row.family, s.now, Logout))
    case Revoking(_) => s
    case Returned(_) => s
  }

  function RevokedFirst(s: State, c: CallId, why: Cause): State
    requires c in s.calls
  {
    Goto(s, c, if ReasonFor(why) == ReuseDetected then Stamping(why) else Returned(Revoked(why))).(
      rows := RevokeLive(s.rows, s.calls[c].row.family, s.now, ReasonFor(why)))
  }

  function RevokedWhole(s: State, c: CallId, why: Cause): State
    requires c in s.calls
  {
    Goto(s, c, Returned(Revoked(why))).(rows := RevokeFamily(s.rows, s.calls[c].row.family, s.now, ReasonFor(why)))
  }

  function Begun(s: State, c: CallId, t: TokenId, stage: Stage): State
    requires t in s.rows
  {
    s.(calls := s.calls[c := Call(t, s.rows[t], stage)])
  }

  function SignedIn(s: State, subject: Subject): State {
    s.(rows := Insert(s.rows, s.nextToken, s.nextFamily, subject, s.now),
       chain := s.chain[s.nextFamily := [s.nextToken]],
       nextToken := s.nextToken + 1, nextFamily := s.nextFamily + 1)
  }

  /** Outcomes only a call that had claimed its token can reach. */
  predicate AfterClaim(outcome: Outcome) {
    match outcome
    case Committed => true
    case StoreFailed => true
    case Revoked(why) => CausedAfterClaim(why)
    case Crashed(claimed, _) => claimed
    case _ => false
  }

  predicate CausedAfterClaim(why: Cause) {
    why == SubjectGone || why == Compromised
  }

  /** The call claimed its token: its conditional UPDATE affected the row. */
  predicate Won(call: Call) {
    match call.at
    case Resolving => true
    case Minting(_) => true
    case Revoking(why) => CausedAfterClaim(why)
    case Stamping(why) => CausedAfterClaim(why)
    case Returned(outcome) => AfterClaim(outcome)
    case _ => false
  }

  /** What is left of a call that stops here. */
  function Stopped(call: Call): Outcome {
    Crashed(Won(call), match call.at
                       case Revoking(why) => BeforeRevoke(why)
                       case Stamping(why) => BetweenUpdates(why)
                       case _ => Elsewhere)
  }

  /** Account rows: an administrator's write, a read of a whole row, or its save as it was read. */
  function Managed(a: Accounts, step: Step): Accounts {
    match step
    case SetDriver(id, active) =>
      a.(drivers := if active.Some? then a.drivers[id := active.value] else a.drivers - {id})
    case SetUser(id, account) =>
      a.(users := if account.Some? then a.users[id := account.value] else a.users - {id})
    case LoadDriver(c, id) =>
      if c !in a.copies && id in a.drivers then a.(copies := a.copies[c := DriverCopy(id, a.drivers[id])]) else a
    case LoadUser(c, id) =>
      if c !in a.copies && id in a.users && !a.users[id].blocked then
        a.(copies := a.copies[c := UserCopy(id, a.users[id])])
      else a
    case SaveCopy(c) =>
      if c !in a.copies then a
      else
        (match a.copies[c]
         case DriverCopy(id, active) => a.(drivers := a.drivers[id := active], copies := a.copies - {c})
         case UserCopy(id, account) => a.(users := a.users[id := account], copies := a.copies - {c}))
    case _ => a
  }

  function Next(s: State, step: Step): State {
    match step
    case Read(c, t) => if c !in s.calls && t in s.rows then Begun(s, c, t, Checking) else s
    case SignOutRead(c, t) => if c !in s.calls && IsLive(s.rows, t) then Begun(s, c, t, SigningOut) else s
    case Advance(c) => if c in s.calls then Advanced(s, c) else s
    case RevokeFirst(c) => if c in s.calls && s.calls[c].at.Revoking? then RevokedFirst(s, c, s.calls[c].at.why) else s
    case RevokeWhole(c) => if c in s.calls && s.calls[c].at.Revoking? then RevokedWhole(s, c, s.calls[c].at.why) else s
    case StoreFails(c) => if c in s.calls && s.calls[c].at.Minting? then Goto(s, c, Returned(StoreFailed)) else s
    case Crash(c) =>
      if c in s.calls && !s.calls[c].at.Returned? then Goto(s, c, Returned(Stopped(s.calls[c]))) else s
    case SignIn(subject) => SignedIn(s, subject)
    case RevokeAll(subject) => s.(rows := RevokeSubject(s.rows, subject, s.now))
    case Tick(ms) => s.(now := s.now + ms)
    case Sweep => s.(rows := Prune(s.rows, s.now))
    case _ => s.(accounts := Managed(s.accounts, step))
  }

  function Run(s: State, steps: seq<Step>): State {
    if steps == [] then s else Next(Run(s, steps[..|steps| - 1]), steps[|steps| - 1])
  }

  // ----- one unit of session per family -----

  /** It claimed its token and has neither minted nor failed yet. */
  predicate InFlight(call: Call) {
    call.at.Resolving? || call.at.Minting?
  }

  predicate InFlightIn(s: State, family: FamilyId, c: CallId) {
    c in s.calls && InFlight(s.calls[c]) && s.calls[c].row.family == family
  }

  function Last(xs: seq<TokenId>): TokenId
    requires xs != []
  {
    xs[|xs| - 1]
  }

  ghost predicate FamilyOk(s: State, f: FamilyId) {
    f in s.chain && s.chain[f] != [] && f < s.nextFamily
  }

  /** Only the newest token of a family can be live. */
  ghost predicate RowOk(s: State, t: TokenId, row: RefreshToken) {
    && t < s.nextToken && FamilyOk(s, row.family)
    && (row.Live() ==> t == Last(s.chain[row.family]))
  }

  /** Only the newest token can be in the middle of an exchange, and a token once claimed is not live. */
  ghost predicate CallOk(s: State, call: Call) {
    && call.id < s.nextToken && FamilyOk(s, call.row.family)
    && (call.id in s.rows ==> s.rows[call.id].family == call.row.family)
    && (InFlight(call) ==> call.id == Last(s.chain[call.row.family]))
    && (Won(call) ==> !IsLive(s.rows, call.id))
  }

  ghost predicate ClaimedOnce(calls: map<CallId, Call>) {
    forall c, d :: c in calls && d in calls && Won(calls[c]) && Won(calls[d]) && calls[c].id == calls[d].id ==> c == d
  }

  ghost predicate Inv(s: State) {
    && (forall f :: f in s.chain ==> FamilyOk(s, f))
    && (forall t :: t in s.rows ==> RowOk(s, t, s.rows[t]))
    && (forall c :: c in s.calls ==> CallOk(s, s.calls[c]))
    && ClaimedOnce(s.calls)
  }

  /** A statement that adds no row and revives none. */
  ghost predicate Fades(rows: Table, after: Table) {
    forall t :: t in after ==> t in rows && after[t].family == rows[t].family && (after[t].Live() ==> rows[t].Live())
  }

  /** A call that moves on without claiming. */
  ghost predicate MovesOn(call: Call, after: Call) {
    && after.id == call.id && after.row == call.row
    && (Won(after) ==> Won(call)) && (InFlight(after) ==> InFlight(call))
  }

  lemma FadingKeepsInv(s: State, rows: Table)
    requires Inv(s) && Fades(s.rows, rows)
    ensures Inv(s.(rows := rows))
  {
  }

  lemma MovingOnKeepsInv(s: State, c: CallId, stage: Stage)
    requires Inv(s) && c in s.calls && MovesOn(s.calls[c], s.calls[c].(at := stage))
    ensures Inv(Goto(s, c, stage))
  {
  }

  lemma ReadKeepsInv(s: State, c: CallId, t: TokenId, stage: Stage)
    requires Inv(s) && c !in s.calls && t in s.rows && (stage.Checking? || stage.SigningOut?)
    ensures Inv(Begun(s, c, t, stage))
  {
  }

  lemma ClaimKeepsInv(s: State, c: CallId)
    requires Inv(s) && c in s.calls && s.calls[c].at.Claiming? && IsLive(s.rows, s.calls[c].id)
    ensures Inv(ClaimToken(s, c))
  {
  }

  lemma MintKeepsInv(s: State, c: CallId, subject: Subject)
    requires Inv(s) && c in s.calls && s.calls[c].at == Minting(subject)
    ensures Inv(MintCommits(s, c, Insert(s.rows, s.nextToken, s.calls[c].row.family, subject, s.now)))
  {
    var after := MintCommits(s, c, Insert(s.rows, s.nextToken, s.calls[c].row.family, subject, s.now));
    MintKeepsRows(s, c, subject);
    MintKeepsCalls(s, c, subject);
    forall d, e | d in after.calls && e in after.calls && Won(after.calls[d]) && Won(after.calls[e])
                  && after.calls[d].id == after.calls[e].id
      ensures d == e
    {
      assert Won(s.calls[d]) && Won(s.calls[e]);
    }
  }

  lemma MintKeepsCalls(s: State, c: CallId, subject: Subject)
    requires Inv(s) && c in s.calls && s.calls[c].at == Minting(subject)
    ensures var after := MintCommits(s, c, Insert(s.rows, s.nextToken, s.calls[c].row.family, subject, s.now));
            forall d :: d in after.calls ==> CallOk(after, after.calls[d])
  {
  }

  lemma MintKeepsRows(s: State, c: CallId, subject: Subject)
    requires Inv(s) && c in s.calls && s.calls[c].at == Minting(subject)
    ensures var after := MintCommits(s, c, Insert(s.rows, s.nextToken, s.calls[c].row.family, subject, s.now));
            && (forall f :: f in after.chain ==> FamilyOk(after, f))
            && (forall t :: t in after.rows ==> RowOk(after, t, after.rows[t]))
  {
  }

  lemma SignInKeepsInv(s: State, subject: Subject)
    requires Inv(s)
    ensures Inv(SignedIn(s, subject))
  {
  }

  lemma CheckKeepsInv(s: State, c: CallId)
    requires Inv(s) && c in s.calls && s.calls[c].at.Checking?
    ensures Inv(Check(s, c))
  {
    MovingOnKeepsInv(s, c, Check(s, c).calls[c].at);
  }

  lemma ResolveKeepsInv(s: State, c: CallId)
    requires Inv(s) && c in s.calls && s.calls[c].at.Resolving?
    ensures Inv(ResolveSubject(s, c))
  {
    MovingOnKeepsInv(s, c, ResolveSubject(s, c).calls[c].at);
  }

  lemma LastUpdateKeepsInv(s: State, c: CallId, outcome: Outcome, rows: Table)
    requires Inv(s) && c in s.calls && Fades(s.rows, rows)
    requires || (outcome.Revoked? && s.calls[c].at == Stamping(outcome.why))
             || (outcome == SignedOut && s.calls[c].at.SigningOut?)
    ensures Inv(Goto(s, c, Returned(outcome)).(rows := rows))
  {
    MovingOnKeepsInv(s, c, Returned(outcome));
    FadingKeepsInv(Goto(s, c, Returned(outcome)), rows);
  }

  lemma AdvanceKeepsInv(s: State, c: CallId)
    requires Inv(s) && c in s.calls
    ensures Inv(Advanced(s, c))
  {
    var call := s.calls[c];
    match call.at
    case Checking => CheckKeepsInv(s, c);
    case Claiming =>
      if IsLive(s.rows, call.id) { ClaimKeepsInv(s, c); } else { MovingOnKeepsInv(s, c, Revoking(LostRace)); }
    case Resolving => ResolveKeepsInv(s, c);
    case Minting(subject) =>
      if Breached(Insert(s.rows, s.nextToken, call.row.family, subject, s.now), call.row.family) {
        MovingOnKeepsInv(s, c, Revoking(Compromised));
      } else {
        MintKeepsInv(s, c, subject);
      }
    case Stamping(why) => LastUpdateKeepsInv(s, c, Revoked(why), Stamp(s.rows, call.row.family));
    case SigningOut => LastUpdateKeepsInv(s, c, SignedOut, RevokeLive(s.rows, call.row.family, s.now, Logout));
    case _ =>
  }

  lemma RevokingKeepsInv(s: State, c: CallId, why: Cause)
    requires Inv(s) && c in s.calls && s.calls[c].at == Revoking(why)
    ensures Inv(RevokedFirst(s, c, why)) && Inv(RevokedWhole(s, c, why))
  {
    var family, reason := s.calls[c].row.family, ReasonFor(why);
    var stage := if reason == ReuseDetected then Stamping(why) else Returned(Revoked(why));
    RevokedRowsKeepInv(s, c, why, stage, RevokeLive(s.rows, family, s.now, reason));
    RevokedRowsKeepInv(s, c, why, Returned(Revoked(why)), RevokeFamily(s.rows, family, s.now, reason));
  }

  lemma RevokedRowsKeepInv(s: State, c: CallId, why: Cause, stage: Stage, rows: Table)
    requires Inv(s) && c in s.calls && s.calls[c].at == Revoking(why)
    requires stage == Stamping(why) || stage == Returned(Revoked(why))
    requires Fades(s.rows, rows)
    ensures Inv(Goto(s, c, stage).(rows := rows))
  {
    MovingOnKeepsInv(s, c, stage);
    FadingKeepsInv(Goto(s, c, stage), rows);
  }

  lemma CallStepKeepsInv(s: State, step: Step)
    requires Inv(s)
    requires || step.Read? || step.SignOutRead? || step.RevokeFirst?
             || step.RevokeWhole? || step.StoreFails? || step.Crash?
    ensures Inv(Next(s, step))
  {
    match step
    case Read(c, t) => if c !in s.calls && t in s.rows { ReadKeepsInv(s, c, t, Checking); }
    case SignOutRead(c, t) => if c !in s.calls && IsLive(s.rows, t) { ReadKeepsInv(s, c, t, SigningOut); }
    case RevokeFirst(c) => if c in s.calls && s.calls[c].at.Revoking? { RevokingKeepsInv(s, c, s.calls[c].at.why); }
    case RevokeWhole(c) => if c in s.calls && s.calls[c].at.Revoking? { RevokingKeepsInv(s, c, s.calls[c].at.why); }
    case StoreFails(c) => if c in s.calls && s.calls[c].at.Minting? { MovingOnKeepsInv(s, c, Returned(StoreFailed)); }
    case Crash(c) =>
      if c in s.calls && !s.calls[c].at.Returned? { MovingOnKeepsInv(s, c, Returned(Stopped(s.calls[c]))); }
  }

  lemma StepKeepsInv(s: State, step: Step)
    requires Inv(s)
    ensures Inv(Next(s, step))
  {
    match step
    case Advance(c) => if c in s.calls { AdvanceKeepsInv(s, c); }
    case SignIn(subject) => SignInKeepsInv(s, subject);
    case RevokeAll(subject) => FadingKeepsInv(s, RevokeSubject(s.rows, subject, s.now));
    case Sweep => FadingKeepsInv(s, Prune(s.rows, s.now));
    case SetDriver(_, _) => SettingsKeepInv(s, Next(s, step));
    case SetUser(_, _) => SettingsKeepInv(s, Next(s, step));
    case LoadDriver(_, _) => SettingsKeepInv(s, Next(s, step));
    case LoadUser(_, _) => SettingsKeepInv(s, Next(s, step));
    case SaveCopy(_) => SettingsKeepInv(s, Next(s, step));
    case Tick(_) => SettingsKeepInv(s, Next(s, step));
    case _ => CallStepKeepsInv(s, step);
  }

  lemma SettingsKeepInv(s: State, after: State)
    requires Inv(s)
    requires after == s.(now := after.now, accounts := after.accounts)
    ensures Inv(after)
  {
  }

  lemma {:induction false} RunKeepsInv(s: State, steps: seq<Step>)
    requires Inv(s)
    ensures Inv(Run(s, steps))
  {
    if steps != [] {
      RunKeepsInv(s, steps[..|steps| - 1]);
      StepKeepsInv(Run(s, steps[..|steps| - 1]), steps[|steps| - 1]);
    }
  }

  /**
   * In every interleaving, each family holds at most one unit of session: its
   * live rows plus its exchanges in flight never exceed one, and no two calls
   * ever claimed the same token.
   */
  lemma OneUnitPerFamily(steps: seq<Step>, family: FamilyId)
    ensures var s := Run(INITIAL, steps);
            var live := set t | t in s.rows && LiveIn(s.rows, family, t);
            var flying := set c | c in s.calls && InFlightIn(s, family, c);
            && |live| + |flying| <= 1
            && (forall c, d :: c in s.calls && d in s.calls && Won(s.calls[c]) && Won(s.calls[d]) ==>
                  s.calls[c].id == s.calls[d].id ==> c == d)
  {
    RunKeepsInv(INITIAL, steps);
    var s := Run(INITIAL, steps);
    var live := set t | t in s.rows && LiveIn(s.rows, family, t);
    var flying := set c | c in s.calls && InFlightIn(s, family, c);
    forall t | t in live ensures t == Last(s.chain[family]) && FamilyOk(s, family) {
      assert RowOk(s, t, s.rows[t]);
    }
    forall c | c in flying
      ensures s.calls[c].id == Last(s.chain[family]) && FamilyOk(s, family) && s.calls[c].id !in live
    {
      assert CallOk(s, s.calls[c]);
    }
    AtMostOne(live);
    AtMostOne(flying);
    if flying != {} {
      var c :| c in flying;
      var newest := s.calls[c].id;
      assert newest !in live && forall t :: t in live ==> t == newest;
      assert live == {};
    }
  }

  lemma AtMostOne(xs: set<nat>)
    requires forall x, y :: x in xs && y in xs ==> x == y
    ensures |xs| <= 1
  {
    if xs != {} {
      var x :| x in xs;
      assert xs == {x};
    }
  }

  /**
   * A family is a linear chain: the only step that lengthens one is a mint,
   * and the token that mint consumed was the end of it.
   */
  lemma ExchangeExtendsTheChain(steps: seq<Step>, step: Step)
    ensures var s := Run(INITIAL, steps);
            || Next(s, step).chain == s.chain
            || (step.Advance? && Lengthens(s, step.c))
            || (&& step.SignIn? && s.nextFamily !in s.chain
                && Next(s, step).chain == s.chain[s.nextFamily := [s.nextToken]])
  {
    RunKeepsInv(INITIAL, steps);
    var s := Run(INITIAL, steps);
    assert !FamilyOk(s, s.nextFamily);
    if step.Advance? && step.c in s.calls {
      AdvanceLengthens(s, step.c);
    }
  }

  lemma AdvanceLengthens(s: State, c: CallId)
    requires Inv(s) && c in s.calls
    ensures Advanced(s, c).chain == s.chain || Lengthens(s, c)
  {
    var call := s.calls[c];
    assert CallOk(s, call);
    if call.at.Minting? {
      var minted := Insert(s.rows, s.nextToken, call.row.family, call.at.subject, s.now);
      if !Breached(minted, call.row.family) {
        assert Advanced(s, c) == MintCommits(s, c, minted);
      }
    }
  }

  /** The call commits its mint, and puts the next token right after the one it consumed. */
  ghost predicate Lengthens(s: State, c: CallId) {
    && c in s.calls && InFlight(s.calls[c])
    && var call := s.calls[c];
    && Advanced(s, c).calls[c].at == Returned(Committed)
    && FamilyOk(s, call.row.family) && Last(s.chain[call.row.family]) == call.id
    && Next(s, Advance(c)).chain == s.chain[call.row.family := s.chain[call.row.family] + [s.nextToken]]
  }
}
