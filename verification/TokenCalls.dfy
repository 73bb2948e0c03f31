/** What each whole session call answers, and which columns of which rows it writes. */
module TokenCalls {
  import opened Prelude
  import opened RefreshTokens
  import opened Sessions

  /** Every row is what `written` says, or as it was. */
  ghost predicate Rewrites(rows: Table, after: Table, written: RefreshToken -> RefreshToken) {
    after.Keys == rows.Keys && forall t :: t in rows ==> after[t] == written(rows[t])
  }

  /** The row revoked now, for this reason. */
  function Closed(row: RefreshToken, now: int, why: Reason): RefreshToken {
    RefreshToken(row.family, row.subject, row.expiresAt, Some(now), Some(why))
  }

  /** A token consumed by an earlier rotation: its family is revoked, and every row of it stamped. */
  lemma ReplayWrites(rows: Table, presented: TokenId, resolved: Option<Subject>, now: int, next: TokenId)
    requires presented in rows && rows[presented].revokedAt.Some? && rows[presented].reason == Some(Rotated)
    ensures var r := Rotate(rows, presented, resolved, now, next);
            var family := rows[presented].family;
            && r.session == None
            && Rewrites(rows, r.rows, (row: RefreshToken) =>
                 if row.family != family then row
                 else
                   RefreshToken(row.family, row.subject, row.expiresAt,
                                if row.revokedAt.None? then Some(now) else row.revokedAt, Some(ReuseDetected)))
  {
  }

  /** A token revoked for another reason, or expired, or unknown: refused, and nothing is written. */
  lemma RefusalWritesNothing(rows: Table, presented: TokenId, resolved: Option<Subject>, now: int, next: TokenId)
    requires || presented !in rows
             || (rows[presented].revokedAt.Some? && rows[presented].reason != Some(Rotated))
             || (rows[presented].revokedAt.None? && rows[presented].expiresAt <= now)
    ensures Rotate(rows, presented, resolved, now, next) == Rotation(rows, None)
  {
  }

  /**
   * The current token: it is revoked as rotated; and if the account is there,
   * the next one takes its place, live for thirty days, with the resolved
   * account.
   */
  lemma ExchangeWrites(rows: Table, presented: TokenId, resolved: Option<Subject>, now: int, next: TokenId)
    requires Healthy(rows) && next !in rows
    requires presented in rows && rows[presented].revokedAt.None? && rows[presented].expiresAt > now
    ensures var claimed := rows[presented := Closed(rows[presented], now, Rotated)];
            Rotate(rows, presented, resolved, now, next) ==
            if resolved.None? then Rotation(claimed, None)
            else
              var row := RefreshToken(rows[presented].family, resolved.value, now + 30 * 86_400_000, None, None);
              Rotation(claimed[next := row], Some(next))
  {
    var family := rows[presented].family;
    var claimed := rows[presented := Closed(rows[presented], now, Rotated)];
    assert LiveIn(rows, family, presented) && !Breached(rows, family);
    if resolved.None? {
      assert RevokeFamily(claimed, family, now, SubjectUnavailable) == claimed;
    } else {
      var issued := claimed[next := RefreshToken(family, resolved.value, now + 30 * 86_400_000, None, None)];
      forall t | t in issued && issued[t].family == family ensures issued[t].reason != Some(ReuseDetected) {
        assert t in rows ==> !(rows[t].family == family && rows[t].reason == Some(ReuseDetected));
      }
    }
  }

  /** Signing out with a live token revokes the live rows of its family, for that reason. */
  lemma SignOutWrites(rows: Table, presented: TokenId, now: int)
    ensures var after := RevokeByToken(rows, presented, now);
            if presented in rows && rows[presented].revokedAt.None? then
              var family := rows[presented].family;
              Rewrites(rows, after, (row: RefreshToken) =>
                if row.family == family && row.revokedAt.None? then Closed(row, now, Logout) else row)
            else after == rows
  {
  }

  /** Revoking an account revokes its live rows, for that reason. */
  lemma RevokeSubjectWrites(rows: Table, subject: Subject, now: int)
    ensures Rewrites(rows, RevokeSubject(rows, subject, now), (row: RefreshToken) =>
              if row.subject == subject && row.revokedAt.None? then Closed(row, now, SubjectRevoked) else row)
  {
  }
}
