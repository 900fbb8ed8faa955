/** What each session transaction comes to: who may log in, exchange, be accepted or reset, and what is written. */
module AuthOutcomes {
  import opened Prelude
  import opened AuthSessions
  import opened AuthRuns

  // Exchanging a refresh token.

  /** The session whose refresh token this is. */
  predicate Holds(t: Store, id: Id, hash: Id) {
    id in t.sessions && t.sessions[id].refreshHash == hash
  }

  /** An account in good standing. */
  predicate InStanding(t: Store, user: Id) {
    user in t.users && t.users[user].active && t.users[user].emailVerified
  }

  /** The session was neither exchanged nor revoked, has not run out, and the second token presented is its own. */
  predicate Exchangeable(t: Store, id: Id, csrfHash: Id, now: int)
    requires id in t.sessions
  {
    var s := t.sessions[id];
    && s.rotatedAt == None && s.revokedAt == None && s.csrfHash == csrfHash
    && now < s.expiresAt && now < s.absoluteExpiresAt && InStanding(t, s.user)
  }

  /** The earliest of three readings. */
  predicate IsEarliest(x: int, a: int, b: int, c: int) {
    x <= a && x <= b && x <= c && (x == a || x == b || x == c)
  }

  /**
   * In every run, with newly generated identifiers: the token is exchanged exactly when it is that of an exchangeable
   * session, detected as reused exactly when it is that of a session already exchanged, and otherwise changes nothing.
   */
  lemma {:induction false} ExchangeMeans(life: Lifetimes, events: seq<Timed>, oldHash: Id, csrfHash: Id, next: Id,
                                         nextHash: Id, nextCsrf: Id, now: int)
    requires next !in Run(life, events).usedSessions && nextHash !in Run(life, events).usedHashes
    ensures var t := Run(life, events);
            var (r, outcome) := RotateSession(t, life, oldHash, csrfHash, next, nextHash, nextCsrf, now);
            && (outcome.Rotated? <==> exists id :: Holds(t, id, oldHash) && Exchangeable(t, id, csrfHash, now))
            && (outcome == Reused <==> exists id :: Holds(t, id, oldHash) && t.sessions[id].rotatedAt.Some?)
            && (outcome.Rotated? || outcome == Reused || (outcome == Invalid && r == t))
  {
    hide Run, InFamilies, OneLive, NotAhead, RevokeFamily, Min, Insert;
    RunSound(life, events);
    var t := Run(life, events);
    assert oldHash in t.byHash ==> Holds(t, t.byHash[oldHash], oldHash);
    assert forall x :: Holds(t, x, oldHash) ==> oldHash in t.byHash && t.byHash[oldHash] == x;
  }

  /**
   * An exchange marks the old session and adds one new one, of the same user and family and with the same last expiry;
   * it holds the new tokens, and the access token names it and the user's version now.
   */
  lemma {:induction false} ExchangeWrites(life: Lifetimes, events: seq<Timed>, id: Id, csrfHash: Id, next: Id, nextHash: Id,
                                          nextCsrf: Id, now: int)
    requires next !in Run(life, events).usedSessions && nextHash !in Run(life, events).usedHashes
    requires id in Run(life, events).sessions && Exchangeable(Run(life, events), id, csrfHash, now)
    ensures var t := Run(life, events); var s := t.sessions[id];
            var (r, outcome) := RotateSession(t, life, s.refreshHash, csrfHash, next, nextHash, nextCsrf, now);
            && outcome == Rotated(Claims(s.user, next, t.users[s.user].version))
            && next in r.sessions && var made := r.sessions[next];
               && r.sessions == t.sessions[id := s.(rotatedAt := Some(now))][next := made]
               && made.user == s.user && made.family == s.family && made.refreshHash == nextHash && made.csrfHash == nextCsrf
               && made.absoluteExpiresAt == s.absoluteExpiresAt && made.rotatedAt == None && made.revokedAt == None
               && IsEarliest(made.expiresAt, now + life.idle, now + life.absolute, s.absoluteExpiresAt)
               && r.users == t.users && r.challenges == t.challenges && r.families == t.families && r.logins == t.logins
               && r.byHash == t.byHash[nextHash := next]
  {
    hide Run, InFamilies, OneLive, NotAhead;
    RunSound(life, events);
    var t := Run(life, events);
    assert t.byHash[t.sessions[id].refreshHash] == id;
  }

  /** A reused token revokes every session of its family that was not revoked yet, and no other. */
  lemma {:induction false} ReuseWrites(life: Lifetimes, events: seq<Timed>, id: Id, csrfHash: Id, next: Id, nextHash: Id,
                                       nextCsrf: Id, now: int)
    requires id in Run(life, events).sessions && Run(life, events).sessions[id].rotatedAt.Some?
    ensures var t := Run(life, events); var s := t.sessions[id];
            var r := RotateSession(t, life, s.refreshHash, csrfHash, next, nextHash, nextCsrf, now).0;
            && r == t.(sessions := r.sessions) && r.sessions.Keys == t.sessions.Keys
            && forall x :: x in t.sessions ==>
                 r.sessions[x] == if t.sessions[x].family == s.family && t.sessions[x].revokedAt == None
                                  then t.sessions[x].(revokedAt := Some(now)) else t.sessions[x]
  {
    hide Run, InFamilies, OneLive, NotAhead;
    RunSound(life, events);
    var t := Run(life, events);
    assert t.byHash[t.sessions[id].refreshHash] == id;
  }

  // Access tokens.

  /** A token is accepted exactly for an account in standing, with a usable session of its own, at its version now. */
  lemma AcceptedMeans(t: Store, claims: Claims, now: int)
    ensures Authenticates(t, claims, now) <==>
            && InStanding(t, claims.user) && claims.session in t.sessions
            && t.sessions[claims.session].user == claims.user
            && t.sessions[claims.session].rotatedAt == None && t.sessions[claims.session].revokedAt == None
            && now < t.sessions[claims.session].expiresAt && now < t.sessions[claims.session].absoluteExpiresAt
            && claims.version == t.users[claims.user].version
  {
  }

  // Logging in.

  /** Only an account in standing gets to log in; what is kept of it is its version. */
  lemma LoginMeans(t: Store, login: Id, user: Id, session: Id)
    ensures BeginLogin(t, login, user, session) ==
            if InStanding(t, user) then t.(logins := t.logins[login := Claims(user, session, t.users[user].version)]) else t
  {
  }

  /** A login opens a session in a family of its own, with the tokens it was given and both lifetimes from now. */
  lemma OpeningMeans(t: Store, life: Lifetimes, login: Id, family: Id, refreshHash: Id, csrfHash: Id, now: int)
    requires login in t.logins && family !in t.families && Fresh(t, t.logins[login].session, refreshHash)
    ensures var claims := t.logins[login]; var r := CreateSession(t, life, login, family, refreshHash, csrfHash, now);
            && claims.session in r.sessions && var made := r.sessions[claims.session];
               && r.sessions == t.sessions[claims.session := made]
               && made.user == claims.user && made.family == family && made.refreshHash == refreshHash
               && made.csrfHash == csrfHash && made.absoluteExpiresAt == now + life.absolute
               && IsEarliest(made.expiresAt, now + life.idle, now + life.absolute, now + life.absolute)
               && made.rotatedAt == None && made.revokedAt == None
               && r.byHash == t.byHash[refreshHash := claims.session] && r.users == t.users && r.challenges == t.challenges
               && r.issued == t.issued + {claims} && r.logins == t.logins - {login}
  {
  }

  // Resetting and changing a password.

  /** The challenge was neither used nor tried too often, has not run out, and its account is active. */
  predicate Redeemable(t: Store, tokenHash: Id, now: int) {
    && tokenHash in t.challenges
    && var c := t.challenges[tokenHash];
       && c.consumedAt == None && c.attempts < c.maxAttempts && now < c.expiresAt
       && c.user in t.users && t.users[c.user].active
  }

  /** Every session of the user is revoked, now unless it was before; every other session is as it was. */
  ghost predicate EndsSessions(before: map<Id, Session>, after: map<Id, Session>, user: Id, now: int) {
    && after.Keys == before.Keys
    && forall x :: x in before ==>
         after[x] == if before[x].user == user && before[x].revokedAt == None
                     then before[x].(revokedAt := Some(now)) else before[x]
  }

  /** A reset succeeds exactly with a redeemable challenge; then it is used up, the version goes up, all sessions end. */
  lemma ResetMeans(t: Store, tokenHash: Id, now: int)
    ensures var (r, done) := ConsumePasswordReset(t, tokenHash, now);
            && (done <==> Redeemable(t, tokenHash, now))
            && (!done ==> r == t)
            && (done ==>
                  var user := t.challenges[tokenHash].user;
                  && r == t.(users := r.users, sessions := r.sessions, challenges := r.challenges)
                  && r.challenges == t.challenges[tokenHash := t.challenges[tokenHash].(consumedAt := Some(now))]
                  && r.users == t.users[user := t.users[user].(version := t.users[user].version + 1)]
                  && EndsSessions(t.sessions, r.sessions, user, now))
  {
  }

  lemma ChangeMeans(t: Store, user: Id, now: int)
    requires user in t.users
    ensures var r := ChangePassword(t, user, now);
            && r == t.(users := r.users, sessions := r.sessions)
            && r.users == t.users[user := t.users[user].(version := t.users[user].version + 1)]
            && EndsSessions(t.sessions, r.sessions, user, now)
  {
  }

  /** Asking for a reset: the account's earlier challenges are used up, and a new one can be redeemed until it runs out. */
  lemma AskMeans(t: Store, user: Id, tokenHash: Id, maxAttempts: nat, expiresAt: int, now: int)
    requires user in t.users && tokenHash !in t.usedTokens
    ensures var r := CreateChallenge(t, user, tokenHash, maxAttempts, expiresAt, now);
            && tokenHash in r.challenges && r.challenges[tokenHash] == Challenge(user, expiresAt, None, 0, maxAttempts)
            && r.challenges.Keys == t.challenges.Keys + {tokenHash}
            && (forall h :: h in t.challenges && h != tokenHash ==>
                  r.challenges[h] == if t.challenges[h].user == user && t.challenges[h].consumedAt == None
                                     then t.challenges[h].(consumedAt := Some(now)) else t.challenges[h])
            && r == t.(challenges := r.challenges, usedTokens := r.usedTokens)
  {
  }

  // Signing out.

  lemma SignOutMeans(t: Store, user: Id, id: Id, now: int)
    ensures RevokeSession(t, user, id, now) ==
            if id in t.sessions && t.sessions[id].user == user && t.sessions[id].revokedAt == None
            then t.(sessions := t.sessions[id := t.sessions[id].(revokedAt := Some(now))]) else t
    ensures EndsSessions(t.sessions, RevokeAllSessions(t, user, now).sessions, user, now)
    ensures RevokeAllSessions(t, user, now) == t.(sessions := RevokeAllSessions(t, user, now).sessions)
  {
    assert id in t.sessions ==> t.sessions[id := t.sessions[id]] == t.sessions;
  }

  // Cleanup.

  /** Sessions go thirty days after their last expiry or revocation, challenges one day after expiry or use. */
  lemma CleanupMeans(t: Store, ids: set<Id>, tokens: set<Id>, now: int)
    ensures forall x :: x in Clean(t, ids, now).sessions <==>
              && x in t.sessions
              && !(x in ids && (t.sessions[x].absoluteExpiresAt + 2592000 < now
                                || (exists at :: t.sessions[x].revokedAt == Some(at) && at + 2592000 < now)))
    ensures forall h :: h in Forget(t, tokens, now).challenges <==>
              && h in t.challenges
              && !(h in tokens && (t.challenges[h].expiresAt + 86400 < now
                                   || (exists at :: t.challenges[h].consumedAt == Some(at) && at + 86400 < now)))
  {
  }
}
