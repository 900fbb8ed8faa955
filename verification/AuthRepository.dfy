/** The session repository as it is written, proved against AuthSessions. */
module AuthRepository {
  import opened Prelude
  import opened AuthSessions

  class Repository {
    var users: map<Id, User>
    var sessions: map<Id, Session>
    var byHash: map<Id, Id>
    var challenges: map<Id, Challenge>
    const life: Lifetimes
    // What random generation and signing have produced so far; only statements about the future need it.
    ghost var families: map<Id, Family>
    ghost var usedSessions: set<Id>
    ghost var usedHashes: set<Id>
    ghost var usedTokens: set<Id>
    ghost var logins: map<Id, Claims>
    ghost var issued: set<Claims>

    ghost function Snapshot(): Store
      reads this
    {
      Store(users, sessions, byHash, challenges, families, usedSessions, usedHashes, usedTokens, logins, issued)
    }

    constructor (life: Lifetimes)
      ensures this.life == life && Snapshot() == EmptyStore
    {
      users, sessions, byHash, challenges := map[], map[], map[], map[];
      families, usedSessions, usedHashes, usedTokens, logins, issued := map[], {}, {}, {}, map[], {};
      this.life := life;
    }

    method Insert(id: Id, session: Session)
      modifies `sessions, `byHash, `usedSessions, `usedHashes
      ensures Snapshot() == AuthSessions.Insert(old(Snapshot()), id, session)
    {
      sessions := sessions[id := session];
      byHash := byHash[session.refreshHash := id];
      usedSessions := usedSessions + {id};
      usedHashes := usedHashes + {session.refreshHash};
    }

    /** The last step of a login whose user was read as `claims`; every identifier it brings is newly generated. */
    method CreateSession(ghost login: Id, claims: Claims, family: Id, refreshHash: Id, csrfHash: Id, now: int)
      requires login in logins && logins[login] == claims
      requires family !in families && Fresh(Snapshot(), claims.session, refreshHash)
      modifies this
      ensures Snapshot() == AuthSessions.CreateSession(old(Snapshot()), life, login, family, refreshHash, csrfHash, now)
    {
      var absolute := now + life.absolute;
      var expires := if now + life.idle < absolute then now + life.idle else absolute;
      Insert(claims.session, Session(claims.user, family, refreshHash, csrfHash, expires, absolute, None, None));
      families := families[family := Family(claims.user, absolute)];
      logins := logins - {login};
      issued := issued + {claims};
    }

    method RotateSession(oldHash: Id, csrfHash: Id, next: Id, nextHash: Id, nextCsrf: Id,
                         now: int) returns (outcome: Outcome)
      modifies this
      ensures (Snapshot(), outcome) ==
        AuthSessions.RotateSession(old(Snapshot()), life, oldHash, csrfHash, next, nextHash, nextCsrf, now)
      requires Fresh(Snapshot(), next, nextHash)
    {
      if oldHash !in byHash || byHash[oldHash] !in sessions {
        return Invalid;
      }
      var id := byHash[oldHash];
      var session := sessions[id];
      if session.rotatedAt.Some? {
        sessions := RevokeFamily(sessions, session.family, now);
        return Reused;
      }
      if || session.revokedAt.Some? || session.csrfHash != csrfHash || session.expiresAt <= now
         || session.absoluteExpiresAt <= now || !MayUse(users, session.user) {
        return Invalid;
      }
      sessions := sessions[id := session.(rotatedAt := Some(now))];
      var expires := Min(Min(now + life.idle, now + life.absolute), session.absoluteExpiresAt);
      Insert(next, Session(session.user, session.family, nextHash, nextCsrf, expires, session.absoluteExpiresAt, None, None));
      var claims := Claims(session.user, next, users[session.user].version);
      issued := issued + {claims};
      outcome := Rotated(claims);
    }

    method RevokeSession(user: Id, id: Id, now: int) returns (revoked: bool)
      modifies `sessions
      ensures Snapshot() == AuthSessions.RevokeSession(old(Snapshot()), user, id, now)
      ensures revoked == (id in old(sessions) && old(sessions)[id].user == user && old(sessions)[id].revokedAt.None?)
    {
      revoked := id in sessions && sessions[id].user == user && sessions[id].revokedAt.None?;
      if revoked {
        sessions := sessions[id := sessions[id].(revokedAt := Some(now))];
      } else {
        assert id in sessions ==> sessions[id := sessions[id]] == sessions;
      }
    }

    /** No session of the user is left unrevoked; every other session, and every earlier revocation, is as it was. */
    static ghost predicate OthersKept(before: map<Id, Session>, after: map<Id, Session>, user: Id) {
      && after.Keys == before.Keys
      && forall id :: id in after ==>
           && (after[id].user == user ==> after[id].revokedAt.Some?)
           && (before[id].user != user || before[id].revokedAt.Some? ==> after[id] == before[id])
           && after[id] == before[id].(revokedAt := after[id].revokedAt)
    }

    method RevokeAllSessions(user: Id, now: int)
      modifies `sessions
      ensures Snapshot() == AuthSessions.RevokeAllSessions(old(Snapshot()), user, now)
      ensures OthersKept(old(sessions), sessions, user)
    {
      sessions := RevokeUser(sessions, user, now);
    }

    method ChangePassword(user: Id, now: int)
      modifies `users, `sessions
      ensures Snapshot() == AuthSessions.ChangePassword(old(Snapshot()), user, now)
      ensures users.Keys == old(users.Keys) && forall u :: u in users && u != user ==> users[u] == old(users)[u]
      ensures user in users ==>
                users[user].version == old(users)[user].version + 1 && OthersKept(old(sessions), sessions, user)
    {
      if user in users {
        users := users[user := users[user].(version := users[user].version + 1)];
        sessions := RevokeUser(sessions, user, now);
      }
    }

    /** The token is newly generated. */
    method CreateChallenge(user: Id, tokenHash: Id, maxAttempts: nat, expiresAt: int, now: int)
      requires tokenHash !in usedTokens
      modifies `challenges, `usedTokens
      ensures Snapshot() == AuthSessions.CreateChallenge(old(Snapshot()), user, tokenHash, maxAttempts, expiresAt, now)
    {
      if user in users {
        challenges := ConsumeOlder(challenges, user, now);
        challenges := challenges[tokenHash := Challenge(user, expiresAt, None, 0, maxAttempts)];
        usedTokens := usedTokens + {tokenHash};
      }
    }

    method ConsumePasswordReset(tokenHash: Id, now: int) returns (consumed: bool)
      modifies `users, `sessions, `challenges
      ensures (Snapshot(), consumed) == AuthSessions.ConsumePasswordReset(old(Snapshot()), tokenHash, now)
    {
      if tokenHash !in challenges {
        return false;
      }
      var challenge := challenges[tokenHash];
      if challenge.user !in users || !users[challenge.user].active || !Usable(challenge, now) {
        return false;
      }
      challenges := challenges[tokenHash := challenge.(consumedAt := Some(now))];
      ChangePassword(challenge.user, now);
      consumed := true;
    }

    /** The token version to compare with a token's, for a session that is still good. */
    method FindActiveIdentity(user: Id, session: Id, now: int) returns (version: Option<nat>)
      ensures forall v: nat :: version == Some(v) <==> Authenticates(Snapshot(), Claims(user, session, v), now)
    {
      if !MayUse(users, user) || session !in sessions {
        return None;
      }
      var s := sessions[session];
      if s.user == user && s.revokedAt.None? && s.rotatedAt.None? && s.expiresAt > now && s.absoluteExpiresAt > now {
        return Some(users[user].version);
      }
      version := None;
    }

    method Authenticate(claims: Claims, now: int) returns (accepted: bool)
      ensures accepted == Authenticates(Snapshot(), claims, now)
    {
      var version := FindActiveIdentity(claims.user, claims.session, now);
      accepted := version == Some(claims.version);
    }

    /** Deletes outdated challenges among those it is given. */
    method CleanupChallenges(tokens: set<Id>, now: int)
      modifies `challenges
      ensures Snapshot() == Forget(old(Snapshot()), tokens, now)
      ensures forall h :: h in challenges <==> h in old(challenges) && !(h in tokens && Outdated(old(challenges)[h], now))
      ensures forall h :: h in challenges ==> challenges[h] == old(challenges)[h]
    {
      challenges := challenges - set h | h in challenges && h in tokens && Outdated(challenges[h], now);
    }

    /** Deletes long dead sessions among those it is given. */
    method Cleanup(ids: set<Id>, now: int)
      modifies `sessions, `byHash
      ensures Snapshot() == Clean(old(Snapshot()), ids, now)
      ensures forall id :: id in sessions <==> id in old(sessions) && !(id in ids && Expendable(old(sessions)[id], now))
      ensures forall id :: id in sessions ==> sessions[id] == old(sessions)[id]
    {
      var gone := set id | id in sessions && id in ids && Expendable(sessions[id], now);
      byHash := byHash - set id | id in gone :: sessions[id].refreshHash;
      sessions := sessions - gone;
    }

    method Register(user: Id)
      modifies `users
      ensures Snapshot() == AuthSessions.Register(old(Snapshot()), user)
    {
      if user !in users {
        users := users[user := User(false, false, 0)];
      }
    }

    method SetStanding(user: Id, active: bool, emailVerified: bool)
      modifies `users
      ensures Snapshot() == AuthSessions.SetStanding(old(Snapshot()), user, active, emailVerified)
    {
      if user in users {
        users := users[user := users[user].(active := active, emailVerified := emailVerified)];
      }
    }

    /** A login reads the user; what it read is not read again when its session is opened. */
    method BeginLogin(ghost login: Id, user: Id, session: Id) returns (claims: Option<Claims>)
      modifies `logins
      ensures Snapshot() == AuthSessions.BeginLogin(old(Snapshot()), login, user, session)
      ensures claims.Some? <==> MayUse(users, user)
      ensures claims.Some? ==> login in logins && logins[login] == claims.value
    {
      if !MayUse(users, user) {
        return None;
      }
      claims := Some(Claims(user, session, users[user].version));
      logins := logins[login := claims.value];
    }

    /** Identifiers and tokens that the event brings were never generated before, and a session has a login. */
    ghost predicate Generated(e: Event)
      reads this
    {
      match e
      case Opens(login, family, refreshHash, csrfHash) =>
        login in logins && family !in families && Fresh(Snapshot(), logins[login].session, refreshHash)
      case Rotates(oldHash, csrfHash, next, nextHash, nextCsrf) => Fresh(Snapshot(), next, nextHash)
      case AsksReset(user, tokenHash, maxAttempts, expiresAt) => tokenHash !in usedTokens
      case _ => true
    }

    /** Whatever arrives, in whatever order, the repository is in the state the run gives. */
    method Perform(event: Timed, claims: Claims, ghost events: seq<Timed>)
      requires Snapshot() == Run(life, events) && Generated(event.event)
      requires event.event.Opens? ==> logins[event.event.login] == claims
      modifies this
      ensures Snapshot() == Run(life, events + [event])
    {
      hide AuthSessions.RotateSession, AuthSessions.CreateSession, Clean, Forget, AuthSessions.ChangePassword,
        AuthSessions.ConsumePasswordReset, AuthSessions.CreateChallenge, RevokeUser, Fresh, OthersKept;
      assert (events + [event])[..|events|] == events;
      var now := event.now;
      match event.event
      case Registers(user) => Register(user);
      case Stands(user, active, emailVerified) => SetStanding(user, active, emailVerified);
      case BeginsLogin(login, user, session) => var _ := BeginLogin(login, user, session);
      case Opens(login, family, refreshHash, csrfHash) => CreateSession(login, claims, family, refreshHash, csrfHash, now);
      case Rotates(oldHash, csrfHash, next, nextHash, nextCsrf) =>
        var _ := RotateSession(oldHash, csrfHash, next, nextHash, nextCsrf, now);
      case Revokes(user, session) => var _ := RevokeSession(user, session, now);
      case RevokesAll(user) => RevokeAllSessions(user, now);
      case ChangesPassword(user) => ChangePassword(user, now);
      case AsksReset(user, tokenHash, maxAttempts, expiresAt) =>
        CreateChallenge(user, tokenHash, maxAttempts, expiresAt, now);
      case Resets(tokenHash) => var _ := ConsumePasswordReset(tokenHash, now);
      case Cleans(ids) => Cleanup(ids, now);
      case Forgets(tokens) => CleanupChallenges(tokens, now);
    }
  }
}
