/** TokenService as the object it is: one table, updated in place (src/auth/services/token.service.ts). */
module TokenServices {
  import opened Prelude
  import opened RefreshTokens
  import Sessions

  class TokenService {
    var rows: Table

    constructor ()
      ensures rows == map[]
    {
      rows := map[];
    }

    /** A brand-new session in a family of its own, good for thirty days. */
    method IssueSession(subject: Subject, family: FamilyId, now: int, next: TokenId) returns (token: TokenId)
      requires next !in rows
      modifies this
      ensures token == next && rows == Insert(old(rows), next, family, subject, now)
      ensures IsLive(rows, token) && rows[token].subject == subject && rows[token].expiresAt == now + 30 * DAY
    {
      token := Mint(subject, family, now, next);
    }

    /**
     * Exchange a refresh token for a new one, consuming it. On a healthy table
     * the exchange succeeds exactly for an unexpired current token whose
     * subject is still there, and the table stays healthy.
     */
    method Rotate(presented: TokenId, resolved: Option<Subject>, now: int,
          next: TokenId) returns (session: Option<TokenId>)
      requires next !in rows
      modifies this
      ensures Sessions.Rotation(rows, session) == Sessions.Rotate(old(rows), presented, resolved, now, next)
      ensures old(Sessions.Healthy(rows)) ==>
                && Sessions.Healthy(rows)
                && (session.Some? <==>
                      old(IsLive(rows, presented) && rows[presented].expiresAt > now) && resolved.Some?)
    {
      ghost var before := rows;
      session := None;
      if presented in rows {
        var stored := rows[presented];
        if !stored.Live() {
          if stored.reason == Some(Rotated) {
            RevokeFamilyRows(stored.family, now, ReuseDetected);
          }
        } else if stored.expiresAt > now {
          rows := rows[presented := stored.(revokedAt := Some(now), reason := Some(Rotated))];
          if resolved.None? {
            RevokeFamilyRows(stored.family, now, SubjectUnavailable);
          } else {
            var savepoint := rows;
            var token := Mint(resolved.value, stored.family, now, next);
            if Breached(rows, stored.family) {
              rows := savepoint;
              RevokeFamilyRows(stored.family, now, ReuseDetected);
            } else {
              session := Some(token);
            }
          }
        }
      }
      if Sessions.Healthy(before) {
        Sessions.RotateRefines(before, presented, resolved, now, next);
        if presented in before {
          Sessions.HealthyHasSession(before, before[presented].family);
          assert IsLive(before, presented) <==> LiveIn(before, before[presented].family, presented);
        }
      }
    }

    /** End one session; silent about tokens that are unknown or already revoked. */
    method RevokeByToken(presented: TokenId, now: int)
      modifies this
      ensures rows == Sessions.RevokeByToken(old(rows), presented, now)
    {
      if presented !in rows || !rows[presented].Live() {
        return;
      }
      RevokeFamilyRows(rows[presented].family, now, Logout);
    }

    /** End every session of one account. */
    method RevokeAllForSubject(subject: Subject, now: int)
      modifies this
      ensures rows == RevokeSubject(old(rows), subject, now)
      ensures forall t :: IsLive(rows, t) <==> old(IsLive(rows, t)) && old(rows)[t].subject != subject
    {
      rows := RevokeSubject(rows, subject, now);
    }

    /** Delete what expired more than seven days ago, keep the rest as it is, and count what went. */
    method PruneExpired(now: int) returns (deleted: nat)
      modifies this
      ensures forall t :: t in rows <==> t in old(rows) && old(rows)[t].expiresAt >= now - 7 * DAY
      ensures forall t :: t in rows ==> rows[t] == old(rows)[t]
      ensures deleted == |set t | t in old(rows) && t !in rows|
      ensures rows == Prune(old(rows), now)
    {
      var expired := set t | t in rows && rows[t].expiresAt < now - GRACE;
      ghost var before := rows;
      rows := rows - expired;
      deleted := |expired|;
      assert expired == set t | t in before && t !in rows;
    }

    method Mint(subject: Subject, family: FamilyId, now: int, next: TokenId) returns (token: TokenId)
      requires next !in rows
      modifies this
      ensures token == next && rows == Insert(old(rows), next, family, subject, now)
    {
      rows := rows[next := RefreshToken(family, subject, now + TTL, None, None)];
      token := next;
    }

    method RevokeFamilyRows(family: FamilyId, now: int, why: Reason)
      modifies this
      ensures rows == RevokeFamily(old(rows), family, now, why)
      ensures forall t :: IsLive(rows, t) <==> old(IsLive(rows, t)) && old(rows)[t].family != family
    {
      Sessions.RevokeFamilyEffect(rows, family, now, why);
      rows := RevokeLive(rows, family, now, why);
      if why == ReuseDetected {
        rows := Stamp(rows, family);
      }
    }
  }
}
