/**
 * The refresh_tokens table and the SQL statements TokenService runs on it.
 *
 * A row is keyed by its token: hashing is taken as injective, and the row id,
 * the token and its hash are all unique and never updated.
 */
module RefreshTokens {
  import opened Prelude

  type TokenId = nat
  type FamilyId = nat

  const DAY := 24 * 60 * 60 * 1000
  const TTL := 30 * DAY
  const GRACE := 7 * DAY

  datatype Role = User | Admin | Driver

  datatype Subject = Subject(id: nat, role: Role)

  datatype Reason = Rotated | Logout | ReuseDetected | SubjectUnavailable | SubjectRevoked

  datatype RefreshToken = RefreshToken(
    family: FamilyId,
    subject: Subject,
    expiresAt: int,
    revokedAt: Option<int>,
    reason: Option<Reason>)
  {
    predicate Live() { revokedAt.None? }

    function Revoke(now: int, why: Reason): RefreshToken {
      this.(revokedAt := Some(now), reason := Some(why))
    }
  }

  type Table = map<TokenId, RefreshToken>

  // ----- statements -----

  /** INSERT of a freshly minted token. */
  function Insert(rows: Table, next: TokenId, family: FamilyId, subject: Subject, now: int): Table {
    rows[next := RefreshToken(family, subject, now + TTL, None, None)]
  }

  /** UPDATE ... WHERE id AND revokedAt IS NULL. It affects a row exactly when `IsLive`. */
  function Claim(rows: Table, id: TokenId, now: int): Table {
    if IsLive(rows, id) then rows[id := rows[id].Revoke(now, Rotated)] else rows
  }

  /** First UPDATE of revokeFamily. */
  function RevokeLive(rows: Table, family: FamilyId, now: int, why: Reason): Table {
    map t | t in rows :: if rows[t].family == family && rows[t].Live() then rows[t].Revoke(now, why) else rows[t]
  }

  /** Second UPDATE of revokeFamily: it leaves `revokedAt` alone. */
  function Stamp(rows: Table, family: FamilyId): Table {
    map t | t in rows :: if rows[t].family == family then rows[t].(reason := Some(ReuseDetected)) else rows[t]
  }

  function RevokeFamily(rows: Table, family: FamilyId, now: int, why: Reason): Table {
    var revoked := RevokeLive(rows, family, now, why);
    if why == ReuseDetected then Stamp(revoked, family) else revoked
  }

  function RevokeSubject(rows: Table, subject: Subject, now: int): Table {
    map t | t in rows ::
      if rows[t].subject == subject && rows[t].Live() then rows[t].Revoke(now, SubjectRevoked) else rows[t]
  }

  /** DELETE of rows that expired longer ago than the grace period. */
  function Prune(rows: Table, now: int): Table {
    map t | t in rows && rows[t].expiresAt >= now - GRACE :: rows[t]
  }

  /** SELECT of any row of the family stamped as reused, revoked or not. */
  predicate Breached(rows: Table, family: FamilyId) {
    exists t :: t in rows && rows[t].family == family && rows[t].reason == Some(ReuseDetected)
  }

  // ----- vocabulary of the proofs -----

  predicate IsLive(rows: Table, t: TokenId) {
    t in rows && rows[t].Live()
  }

  predicate LiveIn(rows: Table, family: FamilyId, t: TokenId) {
    IsLive(rows, t) && rows[t].family == family
  }

  ghost predicate NoLive(rows: Table, family: FamilyId) {
    forall t :: !LiveIn(rows, family, t)
  }

  /** Breach evidence that no statement but a delete can take away. */
  predicate SealedBy(rows: Table, family: FamilyId, t: TokenId) {
    t in rows && rows[t].family == family && !rows[t].Live() && rows[t].reason == Some(ReuseDetected)
  }

  ghost predicate Sealed(rows: Table, family: FamilyId) {
    exists t :: SealedBy(rows, family, t)
  }

  ghost predicate BreachedAreDead(rows: Table) {
    forall f :: Breached(rows, f) ==> NoLive(rows, f)
  }

  /**
   * A change that leaves no new breach evidence, and brings a token to life
   * only in a family without such evidence, keeps breached families dead.
   */
  lemma BreachedStayDead(rows: Table, after: Table)
    requires BreachedAreDead(rows)
    requires forall t :: t in after && after[t].reason == Some(ReuseDetected) ==>
                           t in rows && rows[t].reason == Some(ReuseDetected) && rows[t].family == after[t].family
    requires forall t :: IsLive(after, t) ==>
                           || (IsLive(rows, t) && rows[t].family == after[t].family)
                           || !Breached(rows, after[t].family)
    ensures BreachedAreDead(after)
  {
    forall f | Breached(after, f) ensures NoLive(after, f) {
      var e :| e in after && after[e].family == f && after[e].reason == Some(ReuseDetected);
      assert e in rows && rows[e].family == f;
      assert Breached(rows, f) && NoLive(rows, f);
      forall t ensures !LiveIn(after, f, t) {
        assert !LiveIn(rows, f, t);
      }
    }
  }

  /** A reuse revoke leaves every other family as it was, and its own without a live row. */
  lemma ReuseRevokeKills(rows: Table, family: FamilyId, now: int)
    requires BreachedAreDead(rows)
    ensures BreachedAreDead(RevokeFamily(rows, family, now, ReuseDetected))
  {
    var after := RevokeFamily(rows, family, now, ReuseDetected);
    forall f | Breached(after, f) ensures NoLive(after, f) {
      if f != family {
        var e :| e in after && after[e].family == f && after[e].reason == Some(ReuseDetected);
        assert after[e] == rows[e];
        assert Breached(rows, f) && NoLive(rows, f);
        forall t ensures !LiveIn(after, f, t) {
          assert !LiveIn(rows, f, t);
        }
      }
    }
  }
}
