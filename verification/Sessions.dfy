/**
 * Whole TokenService calls as functions on the table, and the two-state
 * machine each session family really is.
 */
module Sessions {
  import opened Prelude
  import opened RefreshTokens

  // ----- what each call does -----

  datatype Rotation = Rotation(rows: Table, session: Option<TokenId>)

  /** `resolved` is what the subject resolver answers, `next` the random token of a mint. */
  function Rotate(rows: Table, presented: TokenId, resolved: Option<Subject>, now: int, next: TokenId): Rotation {
    if presented !in rows then Rotation(rows, None)
    else
      var stored := rows[presented];
      if !stored.Live() then
        Rotation(if stored.reason == Some(Rotated) then RevokeFamily(rows, stored.family, now, ReuseDetected) else rows,
                 None)
      else if stored.expiresAt <= now then Rotation(rows, None)
      else
        var claimed := Claim(rows, presented, now);
        if resolved.None? then Rotation(RevokeFamily(claimed, stored.family, now, SubjectUnavailable), None)
        else
          var issued := Insert(claimed, next, stored.family, resolved.value, now);
          if Breached(issued, stored.family) then
            Rotation(RevokeFamily(claimed, stored.family, now, ReuseDetected), None)
          else Rotation(issued, Some(next))
  }

  function RevokeByToken(rows: Table, presented: TokenId, now: int): Table {
    if IsLive(rows, presented) then RevokeFamily(rows, rows[presented].family, now, Logout) else rows
  }

  // ----- the machine -----

  datatype Session = Alive(current: TokenId) | Dead

  /** The table says the family is in this state: its only live row is the current token, or it has none. */
  ghost predicate InState(rows: Table, family: FamilyId, session: Session) {
    forall t :: LiveIn(rows, family, t) <==> session == Alive(t)
  }

  ghost function SessionOf(rows: Table, family: FamilyId): Session {
    if exists t :: LiveIn(rows, family, t) then var t :| LiveIn(rows, family, t); Alive(t) else Dead
  }

  /** No family has two live rows, and none has breach evidence beside a live row. */
  ghost predicate Healthy(rows: Table) {
    && (forall t, u :: IsLive(rows, t) && IsLive(rows, u) && rows[t].family == rows[u].family ==> t == u)
    && BreachedAreDead(rows)
  }

  lemma HealthyHasSession(rows: Table, family: FamilyId)
    requires Healthy(rows)
    ensures InState(rows, family, SessionOf(rows, family))
  {
  }

  lemma StateIsSession(rows: Table, family: FamilyId, session: Session)
    requires InState(rows, family, session)
    ensures SessionOf(rows, family) == session
  {
  }

  lemma RevokeFamilyEffect(rows: Table, family: FamilyId, now: int, why: Reason)
    ensures var after := RevokeFamily(rows, family, now, why);
            && after.Keys == rows.Keys
            && (forall t :: IsLive(after, t) <==> IsLive(rows, t) && rows[t].family != family)
            && (forall t :: t in rows ==> after[t].family == rows[t].family)
            && (forall t :: t in rows && rows[t].family != family ==> after[t] == rows[t])
  {
  }

  /** What `rotate` does to the family of the presented token. */
  ghost function AfterRotate(rows: Table, presented: TokenId, resolved: Option<Subject>, now: int,
        next: TokenId): Session
    requires presented in rows
  {
    var stored := rows[presented];
    var session := SessionOf(rows, stored.family);
    if session == Alive(presented) then
      if stored.expiresAt <= now then session
      else if resolved.None? then Dead
      else Alive(next)
    else if stored.reason == Some(Rotated) then Dead
    else session
  }

  /**
   * `rotate` refines the machine. The current token moves its family to the
   * next token, or to Dead when the subject is gone; a token consumed by an
   * earlier rotation kills it; every other presentation changes nothing, and
   * no other family is touched. A session is issued in the first case only.
   */
  lemma RotateRefines(rows: Table, presented: TokenId, resolved: Option<Subject>, now: int, next: TokenId)
    requires Healthy(rows) && next !in rows
    ensures var r := Rotate(rows, presented, resolved, now, next);
            && Healthy(r.rows)
            && (presented !in rows ==> r == Rotation(rows, None))
            && (presented in rows ==>
                  && InState(r.rows, rows[presented].family, AfterRotate(rows, presented, resolved, now, next))
                  && (forall f, s :: f != rows[presented].family && InState(rows, f, s) ==> InState(r.rows, f, s))
                  && (r.session.Some? <==>
                        && SessionOf(rows, rows[presented].family) == Alive(presented)
                        && rows[presented].expiresAt > now && resolved.Some?)
                  && (r.session.Some? ==> r.session == Some(next)))
  {
    if presented in rows {
      var family := rows[presented].family;
      HealthyHasSession(rows, family);
      if !IsLive(rows, presented) {
        assert !LiveIn(rows, family, presented);
        ReuseRefines(rows, family, now);
      } else {
        assert LiveIn(rows, family, presented);
        if resolved.None? {
          SubjectGoneRefines(rows, presented, now);
        } else {
          ExchangeRefines(rows, presented, resolved.value, now, next);
        }
      }
    }
  }

  /** A reuse revoke kills the family and leaves every other family as it was. */
  lemma ReuseRefines(rows: Table, family: FamilyId, now: int)
    requires Healthy(rows)
    ensures var after := RevokeFamily(rows, family, now, ReuseDetected);
            && Healthy(after)
            && InState(after, family, Dead)
            && (forall f, s :: f != family && InState(rows, f, s) ==> InState(after, f, s))
  {
    RevokeFamilyEffect(rows, family, now, ReuseDetected);
    ReuseRevokeKills(rows, family, now);
  }

  lemma RetiringAddsNoBreach(rows: Table, current: TokenId, now: int)
    requires IsLive(rows, current)
    ensures var after := RevokeFamily(Claim(rows, current, now), rows[current].family, now, SubjectUnavailable);
            forall t :: t in after && after[t].reason == Some(ReuseDetected) ==> t in rows && after[t] == rows[t]
  {
  }

  /** The current token, not expired, of a subject that is gone. */
  lemma SubjectGoneRefines(rows: Table, current: TokenId, now: int)
    requires Healthy(rows) && IsLive(rows, current)
    ensures var family := rows[current].family;
            var after := RevokeFamily(Claim(rows, current, now), family, now, SubjectUnavailable);
            && Healthy(after)
            && InState(after, family, Dead)
            && (forall f, s :: f != family && InState(rows, f, s) ==> InState(after, f, s))
  {
    var family := rows[current].family;
    var claimed := Claim(rows, current, now);
    var after := RevokeFamily(claimed, family, now, SubjectUnavailable);
    RevokeFamilyEffect(claimed, family, now, SubjectUnavailable);
    assert forall t :: IsLive(after, t) <==> IsLive(rows, t) && rows[t].family != family;
    RetiringAddsNoBreach(rows, current, now);
    BreachedStayDead(rows, after);
  }

  /** The current token, not expired, of a subject that is there: the mint finds no breach. */
  lemma ExchangeRefines(rows: Table, current: TokenId, subject: Subject, now: int, next: TokenId)
    requires Healthy(rows) && next !in rows && IsLive(rows, current)
    ensures var family := rows[current].family;
            var after := Insert(Claim(rows, current, now), next, family, subject, now);
            && !Breached(after, family)
            && Healthy(after)
            && InState(after, family, Alive(next))
            && (forall f, s :: f != family && InState(rows, f, s) ==> InState(after, f, s))
  {
    var family := rows[current].family;
    var after := Insert(Claim(rows, current, now), next, family, subject, now);
    assert LiveIn(rows, family, current);
    assert !Breached(rows, family);
    assert forall t :: t in after && t != next && t != current ==> t in rows && after[t] == rows[t];
    assert forall t :: IsLive(after, t) <==> t == next || (t != current && IsLive(rows, t));
    BreachedStayDead(rows, after);
  }

  /**
   * Logging out with the current token kills its family, and is not recorded
   * as a breach; with any other token it changes nothing at all.
   */
  lemma LogoutRefines(rows: Table, presented: TokenId, now: int)
    requires Healthy(rows)
    ensures var after := RevokeByToken(rows, presented, now);
            && Healthy(after)
            && (presented !in rows || SessionOf(rows, rows[presented].family) != Alive(presented) ==> after == rows)
            && (IsLive(rows, presented) ==>
                  && InState(after, rows[presented].family, Dead) && !Breached(after, rows[presented].family)
                  && (forall f, s :: f != rows[presented].family && InState(rows, f, s) ==> InState(after, f, s)))
  {
    if IsLive(rows, presented) {
      var family := rows[presented].family;
      HealthyHasSession(rows, family);
      assert LiveIn(rows, family, presented);
      RevokeFamilyEffect(rows, family, now, Logout);
      BreachedStayDead(rows, RevokeByToken(rows, presented, now));
      assert !Breached(rows, family);
    }
  }

  /** Revoking a subject kills exactly the families whose current token is theirs. */
  lemma RevokeSubjectRefines(rows: Table, subject: Subject, now: int)
    requires Healthy(rows)
    ensures var after := RevokeSubject(rows, subject, now);
            && Healthy(after)
            && (forall f, s :: InState(rows, f, s) ==>
                  InState(after, f,
                          if s.Alive? && LiveIn(rows, f, s.current) && rows[s.current].subject == subject
                          then Dead else s))
  {
    var after := RevokeSubject(rows, subject, now);
    BreachedStayDead(rows, after);
    assert forall t :: IsLive(after, t) <==> IsLive(rows, t) && rows[t].subject != subject;
  }

  /** Pruning ends a family only when its current token is past the grace period. */
  lemma PruneRefines(rows: Table, now: int)
    requires Healthy(rows)
    ensures var after := Prune(rows, now);
            && Healthy(after)
            && (forall f, s :: InState(rows, f, s) ==>
                  InState(after, f,
                          if s.Alive? && LiveIn(rows, f, s.current) && rows[s.current].expiresAt < now - 7 * DAY
                          then Dead else s))
  {
    var after := Prune(rows, now);
    BreachedStayDead(rows, after);
    assert forall t :: IsLive(after, t) <==> IsLive(rows, t) && rows[t].expiresAt >= now - GRACE;
  }

  lemma SignInRefines(rows: Table, next: TokenId, family: FamilyId, subject: Subject, now: int)
    requires Healthy(rows) && next !in rows && forall t :: t in rows ==> rows[t].family != family
    ensures var after := Insert(rows, next, family, subject, now);
            && Healthy(after)
            && InState(after, family, Alive(next))
            && (forall f, s :: f != family && InState(rows, f, s) ==> InState(after, f, s))
  {
    var after := Insert(rows, next, family, subject, now);
    BreachedStayDead(rows, after);
    assert forall t :: t in rows ==> after[t] == rows[t];
  }

  // ----- every run of whole calls -----

  datatype Call =
    | SignIn(subject: Subject)
    | Refresh(presented: TokenId, resolved: Option<Subject>)
    | SignOut(presented: TokenId)
    | RevokeAll(subject: Subject)
    | Sweep
    | Wait(ms: nat)

  /** Random identifiers never repeat: each is the next unused number. */
  datatype Service = Service(rows: Table, now: int, nextToken: TokenId, nextFamily: FamilyId)

  const EMPTY := Service(map[], 0, 0, 0)

  function Serve(s: Service, call: Call): Service {
    match call
    case SignIn(subject) =>
      s.(rows := Insert(s.rows, s.nextToken, s.nextFamily, subject, s.now),
         nextToken := s.nextToken + 1, nextFamily := s.nextFamily + 1)
    case Refresh(presented, resolved) =>
      s.(rows := Rotate(s.rows, presented, resolved, s.now, s.nextToken).rows, nextToken := s.nextToken + 1)
    case SignOut(presented) => s.(rows := RevokeByToken(s.rows, presented, s.now))
    case RevokeAll(subject) => s.(rows := RevokeSubject(s.rows, subject, s.now))
    case Sweep => s.(rows := Prune(s.rows, s.now))
    case Wait(ms) => s.(now := s.now + ms)
  }

  function Run(s: Service, calls: seq<Call>): Service {
    if calls == [] then s else Serve(Run(s, calls[..|calls| - 1]), calls[|calls| - 1])
  }

  ghost predicate Sound(s: Service) {
    && Healthy(s.rows)
    && forall t :: t in s.rows ==> t < s.nextToken && s.rows[t].family < s.nextFamily
  }

  lemma ServeIsSound(s: Service, call: Call)
    requires Sound(s)
    ensures Sound(Serve(s, call))
    ensures Serve(s, call).nextFamily >= s.nextFamily
    ensures forall f: nat :: f < s.nextFamily && InState(s.rows, f, Dead) ==> InState(Serve(s, call).rows, f, Dead)
  {
    match call
    case SignIn(subject) => SignInRefines(s.rows, s.nextToken, s.nextFamily, subject, s.now);
    case Refresh(presented, resolved) =>
      RotateRefines(s.rows, presented, resolved, s.now, s.nextToken);
      if presented in s.rows && InState(s.rows, s.rows[presented].family, Dead) {
        RotateKeepsDead(s.rows, presented, resolved, s.now, s.nextToken);
      }
      RotateKeepsIdentity(s.rows, presented, resolved, s.now, s.nextToken);
    case SignOut(presented) => LogoutRefines(s.rows, presented, s.now);
    case RevokeAll(subject) => RevokeSubjectRefines(s.rows, subject, s.now);
    case Sweep => PruneRefines(s.rows, s.now);
    case Wait(ms) =>
  }

  lemma RotateKeepsDead(rows: Table, presented: TokenId, resolved: Option<Subject>, now: int, next: TokenId)
    requires Healthy(rows) && next !in rows && presented in rows && InState(rows, rows[presented].family, Dead)
    ensures InState(Rotate(rows, presented, resolved, now, next).rows, rows[presented].family, Dead)
  {
    RotateRefines(rows, presented, resolved, now, next);
    StateIsSession(rows, rows[presented].family, Dead);
  }

  lemma RotateKeepsIdentity(rows: Table, presented: TokenId, resolved: Option<Subject>, now: int, next: TokenId)
    ensures var after := Rotate(rows, presented, resolved, now, next).rows;
            forall t :: t in after ==>
              (t in rows && after[t].family == rows[t].family)
              || (t == next && presented in rows && after[t].family == rows[presented].family)
  {
  }

  /** At most one live token per family, and no live token in a breached family, after any calls in any order. */
  lemma {:induction false} EveryRunIsSound(calls: seq<Call>)
    ensures Sound(Run(EMPTY, calls))
  {
    if calls != [] {
      EveryRunIsSound(calls[..|calls| - 1]);
      ServeIsSound(Run(EMPTY, calls[..|calls| - 1]), calls[|calls| - 1]);
    }
  }

  /** Dead is final: a family that is over never has a live token again, whatever is called. */
  lemma {:induction false} DeadIsFinal(s: Service, calls: seq<Call>, family: FamilyId)
    requires Sound(s) && family < s.nextFamily && InState(s.rows, family, Dead)
    ensures var after := Run(s, calls); Sound(after) && family < after.nextFamily && InState(after.rows, family, Dead)
  {
    if calls != [] {
      DeadIsFinal(s, calls[..|calls| - 1], family);
      ServeIsSound(Run(s, calls[..|calls| - 1]), calls[|calls| - 1]);
    }
  }

  /** In every reachable table, sweeping changes no answer `rotate` gives, then or at any later time. */
  lemma PruneChangesNoAnswer(calls: seq<Call>, presented: TokenId, resolved: Option<Subject>, later: int, next: TokenId)
    requires var s := Run(EMPTY, calls); later >= s.now && next >= s.nextToken
    ensures var s := Run(EMPTY, calls);
            Rotate(Prune(s.rows, s.now), presented, resolved, later, next).session
            == Rotate(s.rows, presented, resolved, later, next).session
  {
    var s := Run(EMPTY, calls);
    EveryRunIsSound(calls);
    RotateRefines(s.rows, presented, resolved, later, next);
    PruneRefines(s.rows, s.now);
    var pruned := Prune(s.rows, s.now);
    RotateRefines(pruned, presented, resolved, later, next);
    if presented in pruned {
      var family := s.rows[presented].family;
      HealthyHasSession(s.rows, family);
      HealthyHasSession(pruned, family);
    }
  }

  // ----- what becomes of a revoked token -----

  /** Until it is swept, a revoked row keeps its family and expiry, and its reason unless it is stamped as reused. */
  ghost predicate StaysRevoked(rows: Table, after: Table, t: TokenId) {
    t in rows && !rows[t].Live() && t in after ==>
      && !after[t].Live() && after[t].family == rows[t].family && after[t].expiresAt == rows[t].expiresAt
      && (after[t].reason == rows[t].reason || after[t].reason == Some(ReuseDetected))
  }

  /** No call but a sweep past the grace period takes a row away. */
  predicate StaysReadable(rows: Table, after: Table, now: int, t: TokenId) {
    t in rows && rows[t].expiresAt >= now - GRACE ==> t in after && after[t].expiresAt == rows[t].expiresAt
  }

  lemma ServeKeepsRevoked(s: Service, call: Call, t: TokenId)
    requires s.nextToken !in s.rows
    ensures StaysRevoked(s.rows, Serve(s, call).rows, t) && StaysReadable(s.rows, Serve(s, call).rows, s.now, t)
    ensures Serve(s, call).now >= s.now
  {
  }

  /**
   * A revoked row, at any later time: gone only once its grace period is over,
   * and otherwise as it was or stamped as reused.
   */
  lemma {:induction false} RevokedForGood(s: Service, calls: seq<Call>, t: TokenId)
    requires Sound(s) && t in s.rows && !s.rows[t].Live()
    ensures var after := Run(s, calls);
            && Sound(after) && StaysRevoked(s.rows, after.rows, t)
            && after.now >= s.now && (after.now <= s.rows[t].expiresAt + GRACE ==> t in after.rows)
            && (t !in after.rows ==> t < after.nextToken)
  {
    if calls != [] {
      var front, last := calls[..|calls| - 1], calls[|calls| - 1];
      RevokedForGood(s, front, t);
      ServeIsSound(Run(s, front), last);
      ServeKeepsRevoked(Run(s, front), last, t);
    }
  }

  lemma ExchangeConsumes(rows: Table, t: TokenId, resolved: Option<Subject>, now: int, next: TokenId)
    requires next !in rows && Rotate(rows, t, resolved, now, next).session.Some?
    ensures var after := Rotate(rows, t, resolved, now, next).rows;
            && t in rows && t in after && !after[t].Live() && after[t].reason == Some(Rotated)
            && after[t].family == rows[t].family && after[t].expiresAt == rows[t].expiresAt
  {
  }

  /**
   * Reuse detection, end to end: once a token has been exchanged, presenting
   * it again issues nothing at any later time, and ends its family whenever
   * the row is still there; and it is there until the grace period is over.
   */
  lemma ReplayEndsTheSession(calls: seq<Call>, t: TokenId, resolved: Option<Subject>, later: seq<Call>,
        again: Option<Subject>)
    requires var s := Run(EMPTY, calls); t in s.rows && Rotate(s.rows, t, resolved, s.now, s.nextToken).session.Some?
    ensures var s := Run(EMPTY, calls);
            var after := Run(Serve(s, Refresh(t, resolved)), later);
            var replay := Rotate(after.rows, t, again, after.now, after.nextToken);
            && replay.session.None?
            && (t in after.rows ==> InState(replay.rows, s.rows[t].family, Dead))
            && (after.now <= s.rows[t].expiresAt + 7 * DAY ==> t in after.rows)
  {
    EveryRunIsSound(calls);
    var s := Run(EMPTY, calls);
    var exchanged := Serve(s, Refresh(t, resolved));
    ServeIsSound(s, Refresh(t, resolved));
    ExchangeConsumes(s.rows, t, resolved, s.now, s.nextToken);
    RevokedForGood(exchanged, later, t);
    var after := Run(exchanged, later);
    RotateRefines(after.rows, t, again, after.now, after.nextToken);
    if t in after.rows && after.rows[t].reason == Some(ReuseDetected) {
      assert Breached(after.rows, s.rows[t].family);
    }
  }

  /** A token revoked for any other reason changes nothing when presented, then or at any later time. */
  lemma RetiredTokensAreInert(s: Service, t: TokenId, later: seq<Call>, resolved: Option<Subject>)
    requires Sound(s) && t in s.rows && !s.rows[t].Live() && s.rows[t].reason != Some(Rotated)
    ensures var after := Run(s, later);
            Rotate(after.rows, t, resolved, after.now, after.nextToken) == Rotation(after.rows, None)
  {
    RevokedForGood(s, later, t);
  }

  /**
   * A client that retries with a token it has signed out of, or whose account
   * was revoked, is refused, and is never taken for a breach.
   */
  lemma DeliberateEndsAreNoBreach(calls: seq<Call>, t: TokenId, end: Call, later: seq<Call>, resolved: Option<Subject>)
    requires IsLive(Run(EMPTY, calls).rows, t)
    requires end == SignOut(t) || end == RevokeAll(Run(EMPTY, calls).rows[t].subject)
    ensures var after := Run(Serve(Run(EMPTY, calls), end), later);
            Rotate(after.rows, t, resolved, after.now, after.nextToken) == Rotation(after.rows, None)
  {
    EveryRunIsSound(calls);
    var s := Run(EMPTY, calls);
    ServeIsSound(s, end);
    assert t in Serve(s, end).rows;
    RetiredTokensAreInert(Serve(s, end), t, later, resolved);
  }
}
