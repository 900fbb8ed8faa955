/** What holds of token families, sessions and access tokens in every run. */
module AuthRuns {
  import opened Prelude
  import opened AuthSessions

  type Sessions = map<Id, Session>

  // The invariant.

  /** Sessions of a family share its user and its absolute expiry, and never outlive it. */
  ghost predicate InFamilies(sessions: Sessions, families: map<Id, Family>) {
    forall id :: id in sessions ==>
      var s := sessions[id];
      s.family in families && families[s.family] == Family(s.user, s.absoluteExpiresAt) && s.expiresAt <= s.absoluteExpiresAt
  }

  predicate LiveIn(sessions: Sessions, id: Id, family: Id) {
    id in sessions && sessions[id].family == family && Live(sessions[id])
  }

  /** At most one session of a family is unrotated and unrevoked. */
  ghost predicate OneLive(sessions: Sessions) {
    forall a, b, family :: LiveIn(sessions, a, family) && LiveIn(sessions, b, family) ==> a == b
  }

  ghost predicate Indexed(sessions: Sessions, byHash: map<Id, Id>) {
    && (forall id :: id in sessions ==> sessions[id].refreshHash in byHash && byHash[sessions[id].refreshHash] == id)
    && (forall h :: h in byHash ==> byHash[h] in sessions && sessions[byHash[h]].refreshHash == h)
  }

  /** No token, signed or about to be, is ahead of its user's version. */
  ghost predicate NotAhead(users: map<Id, User>, issued: set<Claims>, logins: map<Id, Claims>) {
    && (forall c :: c in issued ==> c.user in users && c.version <= users[c.user].version)
    && (forall l :: l in logins ==> logins[l].user in users && logins[l].version <= users[logins[l].user].version)
  }

  ghost predicate Sound(t: Store) {
    && InFamilies(t.sessions, t.families) && OneLive(t.sessions) && Indexed(t.sessions, t.byHash)
    && NotAhead(t.users, t.issued, t.logins) && t.sessions.Keys <= t.usedSessions && t.byHash.Keys <= t.usedHashes
  }

  // What a step never undoes.

  ghost predicate VersionsGrow(users: map<Id, User>, later: map<Id, User>) {
    forall u :: u in users ==> u in later && users[u].version <= later[u].version
  }

  /** A session keeps its owner, family and hash, and once rotated or revoked stays so. */
  predicate Follows(s: Session, later: Session) {
    && later.user == s.user && later.family == s.family && later.refreshHash == s.refreshHash
    && (s.rotatedAt.Some? ==> later.rotatedAt.Some?) && (s.revokedAt.Some? ==> later.revokedAt.Some?)
  }

  /** Old sessions follow from what they were, and no session comes back. */
  ghost predicate SessionsFollow(sessions: Sessions, used: set<Id>, later: Sessions) {
    forall id :: id in later && id in used ==> id in sessions && Follows(sessions[id], later[id])
  }

  ghost predicate Later(t: Store, r: Store) {
    && VersionsGrow(t.users, r.users)
    && (forall f :: f in t.families ==> f in r.families && r.families[f] == t.families[f])
    && t.usedSessions <= r.usedSessions && t.usedHashes <= r.usedHashes && t.issued <= r.issued
    && SessionsFollow(t.sessions, t.usedSessions, r.sessions)
    && forall id :: id in r.sessions && id !in t.usedSessions ==> r.sessions[id].refreshHash !in t.usedHashes
  }

  /** Every session of the family is revoked. */
  ghost predicate Dead(t: Store, family: Id) {
    family in t.families && forall id :: id in t.sessions && t.sessions[id].family == family ==> t.sessions[id].revokedAt.Some?
  }

  /** A session that was not there before belongs to a family that was not dead. */
  ghost predicate NewAlive(t: Store, r: Store) {
    forall id :: id in r.sessions && id !in t.usedSessions ==> !Dead(t, r.sessions[id].family)
  }

  lemma DeadStays(t: Store, r: Store, family: Id)
    requires Later(t, r) && NewAlive(t, r) && Dead(t, family)
    ensures Dead(r, family)
  {
    forall id | id in r.sessions && r.sessions[id].family == family ensures r.sessions[id].revokedAt.Some? {
      if id in t.usedSessions {
        assert Follows(t.sessions[id], r.sessions[id]);
      }
    }
  }

  // Steps that revoke sessions, or leave them alone.

  ghost predicate OnlyRevokes(sessions: Sessions, later: Sessions) {
    && later.Keys == sessions.Keys
    && forall id :: id in sessions ==>
         && later[id] == sessions[id].(revokedAt := later[id].revokedAt)
         && (sessions[id].revokedAt.Some? ==> later[id].revokedAt.Some?)
  }

  lemma RevokesFamilies(sessions: Sessions, later: Sessions, families: map<Id, Family>)
    requires OnlyRevokes(sessions, later) && InFamilies(sessions, families)
    ensures InFamilies(later, families)
  {
  }

  lemma RevokesOneLive(sessions: Sessions, later: Sessions)
    requires OnlyRevokes(sessions, later) && OneLive(sessions)
    ensures OneLive(later)
  {
    forall a, b, family | LiveIn(later, a, family) && LiveIn(later, b, family) ensures a == b {
      assert LiveIn(sessions, a, family) && LiveIn(sessions, b, family);
    }
  }

  lemma RevokesIndexed(sessions: Sessions, later: Sessions, byHash: map<Id, Id>, used: set<Id>)
    requires OnlyRevokes(sessions, later) && Indexed(sessions, byHash)
    ensures Indexed(later, byHash) && SessionsFollow(sessions, used, later)
  {
  }

  lemma UsersNotAhead(users: map<Id, User>, later: map<Id, User>, issued: set<Claims>, logins: map<Id, Claims>)
    requires NotAhead(users, issued, logins) && VersionsGrow(users, later)
    ensures NotAhead(later, issued, logins)
  {
  }

  lemma RevokesSound(t: Store, r: Store)
    requires Sound(t)
    requires r == t.(sessions := r.sessions, users := r.users, challenges := r.challenges, usedTokens := r.usedTokens)
    requires OnlyRevokes(t.sessions, r.sessions) && VersionsGrow(t.users, r.users)
    ensures Sound(r) && Later(t, r) && NewAlive(t, r)
  {
    hide InFamilies, OneLive, Indexed, NotAhead, VersionsGrow, SessionsFollow, Dead;
    RevokesFamilies(t.sessions, r.sessions, t.families);
    RevokesOneLive(t.sessions, r.sessions);
    RevokesIndexed(t.sessions, r.sessions, t.byHash, t.usedSessions);
    UsersNotAhead(t.users, r.users, t.issued, t.logins);
  }

  lemma NothingRevoked(sessions: Sessions)
    ensures OnlyRevokes(sessions, sessions)
  {
  }

  lemma ManyRevoked(sessions: Sessions, x: Id, now: int)
    ensures OnlyRevokes(sessions, RevokeFamily(sessions, x, now)) && OnlyRevokes(sessions, RevokeUser(sessions, x, now))
  {
  }

  lemma LoginSound(t: Store, login: Id, user: Id, session: Id)
    requires Sound(t)
    ensures var r := BeginLogin(t, login, user, session); Sound(r) && Later(t, r) && NewAlive(t, r)
  {
    hide InFamilies, OneLive, Indexed, Dead;
    var r := BeginLogin(t, login, user, session);
    NothingRevoked(t.sessions);
    RevokesIndexed(t.sessions, t.sessions, t.byHash, t.usedSessions);
  }

  // Steps that add a session.

  lemma InsertIndexed(sessions: Sessions, byHash: map<Id, Id>, used: set<Id>, id: Id, s: Session)
    requires Indexed(sessions, byHash) && id !in sessions && id !in used && s.refreshHash !in byHash
    ensures Indexed(sessions[id := s], byHash[s.refreshHash := id])
    ensures sessions.Keys <= used ==> SessionsFollow(sessions, used, sessions[id := s])
  {
  }

  lemma InsertOneLive(sessions: Sessions, id: Id, s: Session)
    requires OneLive(sessions) && id !in sessions && forall x :: !LiveIn(sessions, x, s.family)
    ensures OneLive(sessions[id := s])
  {
    var later := sessions[id := s];
    forall a, b, family | LiveIn(later, a, family) && LiveIn(later, b, family) ensures a == b {
      assert a != id ==> LiveIn(sessions, a, family);
      assert b != id ==> LiveIn(sessions, b, family);
    }
  }

  lemma OpenSound(t: Store, life: Lifetimes, login: Id, family: Id, refreshHash: Id, csrfHash: Id, now: int)
    requires Sound(t)
    ensures var r := CreateSession(t, life, login, family, refreshHash, csrfHash, now); Sound(r) && Later(t, r) && NewAlive(t, r)
  {
    hide Indexed, OneLive, SessionsFollow, LiveIn, InFamilies, NotAhead;
    var r := CreateSession(t, life, login, family, refreshHash, csrfHash, now);
    NothingRevoked(t.sessions);
    RevokesIndexed(t.sessions, t.sessions, t.byHash, t.usedSessions);
    if login in t.logins && family !in t.families && Fresh(t, t.logins[login].session, refreshHash) {
      var id := t.logins[login].session;
      InsertIndexed(t.sessions, t.byHash, t.usedSessions, id, r.sessions[id]);
      OpenFamilies(t.sessions, t.families, id, r.sessions[id]);
      InsertOneLive(t.sessions, id, r.sessions[id]);
      OpenNotAhead(t.users, t.issued, t.logins, login);
    }
  }

  lemma OpenFamilies(sessions: Sessions, families: map<Id, Family>, id: Id, s: Session)
    requires InFamilies(sessions, families) && s.family !in families && s.expiresAt <= s.absoluteExpiresAt
    ensures InFamilies(sessions[id := s], families[s.family := Family(s.user, s.absoluteExpiresAt)])
    ensures forall x :: !LiveIn(sessions, x, s.family)
  {
  }

  lemma OpenNotAhead(users: map<Id, User>, issued: set<Claims>, logins: map<Id, Claims>, login: Id)
    requires NotAhead(users, issued, logins) && login in logins
    ensures NotAhead(users, issued + {logins[login]}, logins - {login})
  {
  }

  lemma RotateSound(t: Store, life: Lifetimes, oldHash: Id, csrfHash: Id, next: Id, nextHash: Id, nextCsrf: Id, now: int)
    requires Sound(t)
    ensures var r := RotateSession(t, life, oldHash, csrfHash, next, nextHash, nextCsrf, now).0;
            Sound(r) && Later(t, r) && NewAlive(t, r)
  {
    hide Sound, Later, NewAlive, OnlyRevokes, RevokeFamily, VersionsGrow;
    var (r, outcome) := RotateSession(t, life, oldHash, csrfHash, next, nextHash, nextCsrf, now);
    SameUsers(t.users);
    match outcome
    case Reused =>
      ManyRevoked(t.sessions, t.sessions[t.byHash[oldHash]].family, now);
      RevokesSound(t, r);
    case Rotated(claims) => ExchangeSound(t, life, oldHash, csrfHash, next, nextHash, nextCsrf, now);
    case Invalid =>
      NothingRevoked(t.sessions);
      RevokesSound(t, t);
    case Collision =>
      NothingRevoked(t.sessions);
      RevokesSound(t, t);
  }

  lemma SameUsers(users: map<Id, User>)
    ensures VersionsGrow(users, users)
  {
  }

  /** The old session stops being live before the new one, its only successor, is inserted. */
  lemma ExchangeSound(t: Store, life: Lifetimes, oldHash: Id, csrfHash: Id, next: Id, nextHash: Id, nextCsrf: Id,
                      now: int)
    requires Sound(t) && RotateSession(t, life, oldHash, csrfHash, next, nextHash, nextCsrf, now).1.Rotated?
    ensures var r := RotateSession(t, life, oldHash, csrfHash, next, nextHash, nextCsrf, now).0;
            Sound(r) && Later(t, r) && NewAlive(t, r)
  {
    hide Indexed, OneLive, SessionsFollow, LiveIn, InFamilies, NotAhead, Min;
    var r := RotateSession(t, life, oldHash, csrfHash, next, nextHash, nextCsrf, now).0;
    var id := t.byHash[oldHash];
    var s := t.sessions[id];
    var marked := t.sessions[id := s.(rotatedAt := Some(now))];
    MarkSound(t.sessions, t.families, t.byHash, t.usedSessions, id, now);
    InsertIndexed(marked, t.byHash, t.usedSessions, next, r.sessions[next]);
    MarkFollows(t.sessions, t.usedSessions, id, now, next, r.sessions[next]);
    InsertOneLive(marked, next, r.sessions[next]);
    ShorterLife(life, s, now);
    InsertFamilies(marked, t.families, next, r.sessions[next], id);
    SignedNow(t.users, t.issued, t.logins, Claims(s.user, next, t.users[s.user].version));
    SameUsers(t.users);
    assert !Dead(t, s.family);
  }

  lemma ShorterLife(life: Lifetimes, s: Session, now: int)
    ensures Min(Min(now + life.idle, now + life.absolute), s.absoluteExpiresAt) <= s.absoluteExpiresAt
  {
  }

  lemma MarkSound(sessions: Sessions, families: map<Id, Family>, byHash: map<Id, Id>, used: set<Id>, id: Id, now: int)
    requires id in sessions && Live(sessions[id])
    requires InFamilies(sessions, families) && OneLive(sessions) && Indexed(sessions, byHash)
    ensures var marked := sessions[id := sessions[id].(rotatedAt := Some(now))];
            && InFamilies(marked, families) && OneLive(marked) && Indexed(marked, byHash)
            && forall x :: !LiveIn(marked, x, sessions[id].family)
  {
    var marked := sessions[id := sessions[id].(rotatedAt := Some(now))];
    assert LiveIn(sessions, id, sessions[id].family);
    forall x, family | LiveIn(marked, x, family) ensures LiveIn(sessions, x, family) && x != id {
    }
    assert InFamilies(marked, families) by {
      forall x | x in marked
        ensures var s := marked[x];
                && s.family in families && families[s.family] == Family(s.user, s.absoluteExpiresAt)
                && s.expiresAt <= s.absoluteExpiresAt
      {
        assert x in sessions;
      }
    }
  }

  lemma MarkFollows(sessions: Sessions, used: set<Id>, id: Id, now: int, next: Id, s: Session)
    requires id in sessions && next !in used && sessions.Keys <= used
    ensures SessionsFollow(sessions, used, sessions[id := sessions[id].(rotatedAt := Some(now))][next := s])
  {
  }

  lemma InsertFamilies(sessions: Sessions, families: map<Id, Family>, id: Id, s: Session, like: Id)
    requires InFamilies(sessions, families) && like in sessions && s.expiresAt <= s.absoluteExpiresAt
    requires s.family == sessions[like].family && s.user == sessions[like].user
    requires s.absoluteExpiresAt == sessions[like].absoluteExpiresAt
    ensures InFamilies(sessions[id := s], families)
  {
  }

  lemma SignedNow(users: map<Id, User>, issued: set<Claims>, logins: map<Id, Claims>, claims: Claims)
    requires NotAhead(users, issued, logins) && claims.user in users && claims.version == users[claims.user].version
    ensures NotAhead(users, issued + {claims}, logins)
  {
  }

  // Cleanup.

  lemma CleanSound(t: Store, ids: set<Id>, now: int)
    requires Sound(t)
    ensures var r := Clean(t, ids, now); Sound(r) && Later(t, r) && NewAlive(t, r)
  {
    hide OneLive, SessionsFollow, LiveIn, InFamilies, Indexed, NotAhead, Expendable, VersionsGrow, Dead;
    var r := Clean(t, ids, now);
    var gone := set id | id in t.sessions && id in ids && Expendable(t.sessions[id], now);
    FewerSessions(t.sessions, t.families, gone, t.usedSessions);
    FewerIndexed(t.sessions, t.byHash, gone);
    SameUsers(t.users);
  }

  lemma FewerSessions(sessions: Sessions, families: map<Id, Family>, gone: set<Id>, used: set<Id>)
    requires InFamilies(sessions, families) && OneLive(sessions)
    ensures var later := sessions - gone;
            InFamilies(later, families) && OneLive(later) && SessionsFollow(sessions, used, later)
  {
    var later := sessions - gone;
    forall a, b, family | LiveIn(later, a, family) && LiveIn(later, b, family) ensures a == b {
      assert LiveIn(sessions, a, family) && LiveIn(sessions, b, family);
    }
  }

  lemma FewerIndexed(sessions: Sessions, byHash: map<Id, Id>, gone: set<Id>)
    requires Indexed(sessions, byHash) && gone <= sessions.Keys
    ensures Indexed(sessions - gone, byHash - set id | id in gone :: sessions[id].refreshHash)
  {
    var hashes := set id | id in gone :: sessions[id].refreshHash;
    forall id | id in sessions - gone ensures sessions[id].refreshHash !in hashes {
    }
    forall id | id in gone ensures sessions[id].refreshHash in hashes {
    }
    forall h | h in byHash - hashes ensures byHash[h] !in gone {
      assert h in byHash && sessions[byHash[h]].refreshHash == h;
    }
  }

  // Whole runs.

  lemma StepSound(t: Store, life: Lifetimes, e: Timed)
    requires Sound(t)
    ensures Sound(Step(t, life, e)) && Later(t, Step(t, life, e)) && NewAlive(t, Step(t, life, e))
  {
    hide Sound, Later, NewAlive, CreateSession, RotateSession, Clean, BeginLogin, RevokeSession, RevokeAllSessions,
      ChangePassword, ConsumePasswordReset, CreateChallenge, Forget, Register, SetStanding;
    match e.event
    case Registers(user) => StandingSound(t, life, e);
    case Stands(user, active, emailVerified) => StandingSound(t, life, e);
    case BeginsLogin(login, user, session) => LoginSound(t, login, user, session);
    case Opens(login, family, refreshHash, csrfHash) => OpenSound(t, life, login, family, refreshHash, csrfHash, e.now);
    case Rotates(oldHash, csrfHash, next, nextHash, nextCsrf) =>
      RotateSound(t, life, oldHash, csrfHash, next, nextHash, nextCsrf, e.now);
    case Revokes(user, session) => RevocationSound(t, life, e);
    case RevokesAll(user) => RevocationSound(t, life, e);
    case ChangesPassword(user) => RevocationSound(t, life, e);
    case AsksReset(user, tokenHash, maxAttempts, expiresAt) => StandingSound(t, life, e);
    case Resets(tokenHash) => RevocationSound(t, life, e);
    case Cleans(ids) => CleanSound(t, ids, e.now);
    case Forgets(tokens) => StandingSound(t, life, e);
  }

  lemma RevocationSound(t: Store, life: Lifetimes, e: Timed)
    requires Sound(t) && (e.event.Revokes? || e.event.RevokesAll? || e.event.ChangesPassword? || e.event.Resets?)
    ensures Sound(Step(t, life, e)) && Later(t, Step(t, life, e)) && NewAlive(t, Step(t, life, e))
  {
    hide Sound, Later, NewAlive, OnlyRevokes, RevokeUser, Revoked;
    var r := Step(t, life, e);
    NothingRevoked(t.sessions);
    match e.event {
      case Revokes(user, session) => OneRevoked(t, user, session, e.now);
      case RevokesAll(user) => ManyRevoked(t.sessions, user, e.now);
      case ChangesPassword(user) => ManyRevoked(t.sessions, user, e.now);
      case Resets(tokenHash) => if tokenHash in t.challenges { ManyRevoked(t.sessions, t.challenges[tokenHash].user, e.now); }
    }
    RevokesSound(t, r);
  }

  lemma StandingSound(t: Store, life: Lifetimes, e: Timed)
    requires Sound(t) && (e.event.Registers? || e.event.Stands? || e.event.AsksReset? || e.event.Forgets?)
    ensures Sound(Step(t, life, e)) && Later(t, Step(t, life, e)) && NewAlive(t, Step(t, life, e))
  {
    hide Sound, Later, NewAlive, OnlyRevokes, ConsumeOlder;
    NothingRevoked(t.sessions);
    RevokesSound(t, Step(t, life, e));
  }

  lemma OneRevoked(t: Store, user: Id, id: Id, now: int)
    ensures OnlyRevokes(t.sessions, RevokeSession(t, user, id, now).sessions)
  {
  }

  lemma {:induction false} RunSound(life: Lifetimes, events: seq<Timed>)
    ensures Sound(Run(life, events))
  {
    hide Step;
    if events != [] {
      RunSound(life, events[..|events| - 1]);
      StepSound(Run(life, events[..|events| - 1]), life, events[|events| - 1]);
    }
  }

  lemma {:induction false} RunLater(life: Lifetimes, events: seq<Timed>, i: nat, family: Id)
    requires i <= |events|
    ensures Later(Run(life, events[..i]), Run(life, events))
    ensures Dead(Run(life, events[..i]), family) ==> Dead(Run(life, events), family)
    decreases |events|
  {
    hide Step, Sound, Later, Dead, NewAlive;
    if i == |events| {
      assert events[..i] == events;
      RunSound(life, events);
      SameLater(Run(life, events));
    } else {
      var init := events[..|events| - 1];
      assert init[..i] == events[..i];
      RunLater(life, init, i, family);
      RunSound(life, init);
      StepSound(Run(life, init), life, events[|events| - 1]);
      LaterChains(Run(life, events[..i]), Run(life, init), Run(life, events));
      if Dead(Run(life, init), family) {
        DeadStays(Run(life, init), Run(life, events), family);
      }
    }
  }

  lemma SameLater(t: Store)
    requires Sound(t)
    ensures Later(t, t)
  {
  }

  lemma LaterChains(a: Store, b: Store, c: Store)
    requires Later(a, b) && Later(b, c)
    ensures Later(a, c)
  {
  }

  // The promises.

  lemma {:induction false} OneLivePerFamily(life: Lifetimes, events: seq<Timed>, a: Id, b: Id)
    requires var sessions := Run(life, events).sessions;
             && a in sessions && b in sessions && sessions[a].family == sessions[b].family
             && Live(sessions[a]) && Live(sessions[b])
    ensures a == b
  {
    hide Run, InFamilies, Indexed, NotAhead;
    RunSound(life, events);
    var sessions := Run(life, events).sessions;
    assert LiveIn(sessions, a, sessions[a].family) && LiveIn(sessions, b, sessions[a].family);
  }

  /** However often its tokens are exchanged, a family never changes hands and never lives longer than it was given. */
  lemma {:induction false} FamilyExpiryFixed(life: Lifetimes, events: seq<Timed>, i: nat, a: Id, b: Id)
    requires i <= |events| && a in Run(life, events[..i]).sessions && b in Run(life, events).sessions
    requires Run(life, events[..i]).sessions[a].family == Run(life, events).sessions[b].family
    ensures var first, later := Run(life, events[..i]).sessions[a], Run(life, events).sessions[b];
            && later.absoluteExpiresAt == first.absoluteExpiresAt && later.user == first.user
            && later.expiresAt <= first.absoluteExpiresAt
  {
    hide Run, OneLive, Indexed, NotAhead, SessionsFollow, VersionsGrow, Dead;
    RunSound(life, events[..i]);
    RunSound(life, events);
    RunLater(life, events, i, 0);
  }

  /** Once the expiry a family was given has passed, no session it ever has is accepted or exchanged. */
  lemma {:induction false} NothingAfterExpiry(life: Lifetimes, events: seq<Timed>, i: nat, a: Id, b: Id, now: int)
    requires i <= |events| && a in Run(life, events[..i]).sessions && b in Run(life, events).sessions
    requires Run(life, events[..i]).sessions[a].family == Run(life, events).sessions[b].family
    requires now >= Run(life, events[..i]).sessions[a].absoluteExpiresAt
    ensures var u := Run(life, events);
            && (forall claims: Claims :: claims.session == b ==> !Authenticates(u, claims, now))
            && (forall csrfHash: Id, next: Id, nextHash: Id, nextCsrf: Id ::
                  !RotateSession(u, life, u.sessions[b].refreshHash, csrfHash, next, nextHash, nextCsrf, now).1.Rotated?)
  {
    hide Run, InFamilies, OneLive, NotAhead, Insert;
    FamilyExpiryFixed(life, events, i, a, b);
    RunSound(life, events);
    assert Indexed(Run(life, events).sessions, Run(life, events).byHash);
  }

  ghost predicate ExchangesAt(life: Lifetimes, events: seq<Timed>, i: nat, outcome: Outcome)
    requires i < |events|
  {
    events[i].event.Rotates? && var e := events[i].event;
    RotateSession(Run(life, events[..i]), life, e.oldHash, e.csrfHash, e.next, e.nextHash, e.nextCsrf, events[i].now).1 == outcome
  }

  lemma {:induction false} Prefix(life: Lifetimes, events: seq<Timed>, i: nat, j: nat)
    requires i < j <= |events|
    ensures Run(life, events[..i + 1]) == Step(Run(life, events[..i]), life, events[i])
    ensures events[..j][..i + 1] == events[..i + 1]
  {
    assert events[..i + 1][..i] == events[..i];
  }

  /** A refresh token is exchanged at most once. */
  lemma ExchangedOnce(life: Lifetimes, events: seq<Timed>, i: nat, j: nat, first: Claims, second: Claims)
    requires i < j < |events| && ExchangesAt(life, events, i, Rotated(first)) && ExchangesAt(life, events, j, Rotated(second))
    ensures events[i].event.oldHash != events[j].event.oldHash
  {
    hide Run, InFamilies, OneLive, NotAhead, VersionsGrow, Dead, Rotatable;
    RunSound(life, events[..i]);
    Prefix(life, events, i, j);
    RunSound(life, events[..j]);
    RunLater(life, events[..j], i + 1, 0);
    var t, r, u := Run(life, events[..i]), Run(life, events[..i + 1]), Run(life, events[..j]);
    RunSound(life, events[..i + 1]);
    var hash := events[i].event.oldHash;
    var id := t.byHash[hash];
    assert id in r.sessions && r.sessions[id].rotatedAt.Some? && r.sessions[id].refreshHash == hash;
    if hash in u.byHash {
      var later := u.byHash[hash];
      assert later in r.usedSessions;
      assert r.sessions[later].refreshHash == hash;
      assert later == id;
      assert Follows(r.sessions[id], u.sessions[id]);
    }
  }

  /** A replayed token kills its family: nothing in it is ever exchanged or accepted again. */
  lemma {:induction false} ReplayKillsFamily(life: Lifetimes, events: seq<Timed>, i: nat, j: nat, id: Id)
    requires i < j <= |events| && ExchangesAt(life, events, i, Reused) && id in Run(life, events[..j]).sessions
    requires var t := Run(life, events[..i]);
             Run(life, events[..j]).sessions[id].family == t.sessions[t.byHash[events[i].event.oldHash]].family
    ensures var u := Run(life, events[..j]);
            && u.sessions[id].revokedAt.Some?
            && (forall claims: Claims, now: int :: claims.session == id ==> !Authenticates(u, claims, now))
            && (forall csrfHash: Id, next: Id, nextHash: Id, nextCsrf: Id, now: int ::
                  !RotateSession(u, life, u.sessions[id].refreshHash, csrfHash, next, nextHash, nextCsrf, now).1.Rotated?)
  {
    hide Run, OneLive, NotAhead, VersionsGrow, SessionsFollow, Later, NewAlive;
    var t, e := Run(life, events[..i]), events[i].event;
    RunSound(life, events[..i]);
    var family := t.sessions[t.byHash[e.oldHash]].family;
    Prefix(life, events, i, j);
    assert Dead(Run(life, events[..i + 1]), family);
    RunLater(life, events[..j], i + 1, family);
    RunSound(life, events[..j]);
    assert Indexed(Run(life, events[..j]).sessions, Run(life, events[..j]).byHash);
  }

  /** Event `i` gives the user a new password, by change or by reset. */
  ghost predicate NewPasswordAt(life: Lifetimes, events: seq<Timed>, i: nat, user: Id)
    requires i < |events|
  {
    var t, e := Run(life, events[..i]), events[i].event;
    && user in t.users
    && (e == ChangesPassword(user)
        || (e.Resets? && ConsumePasswordReset(t, e.tokenHash, events[i].now).1 && t.challenges[e.tokenHash].user == user))
  }

  /**
   * Once a password is changed or reset, no access token signed before, nor one for a login begun before, is ever
   * accepted again.
   */
  lemma {:induction false} EarlierTokensDie(life: Lifetimes, events: seq<Timed>, i: nat, j: nat, claims: Claims, now: int)
    requires i < j <= |events| && NewPasswordAt(life, events, i, claims.user)
    requires var t := Run(life, events[..i]); claims in t.issued || exists l :: l in t.logins && t.logins[l] == claims
    ensures !Authenticates(Run(life, events[..j]), claims, now)
  {
    hide Run, InFamilies, OneLive, Indexed, SessionsFollow, Dead, RevokeUser;
    RunSound(life, events[..i]);
    Prefix(life, events, i, j);
    RunLater(life, events[..j], i + 1, 0);
    var t := Run(life, events[..i]);
    assert Run(life, events[..i + 1]).users[claims.user].version == t.users[claims.user].version + 1;
  }

  /** Nor is any session that existed then, whatever token names it, and its refresh token is worth nothing. */
  lemma {:induction false} EarlierSessionsDie(life: Lifetimes, events: seq<Timed>, i: nat, j: nat, user: Id, id: Id)
    requires i < j <= |events| && NewPasswordAt(life, events, i, user)
    requires id in Run(life, events[..i]).sessions && Run(life, events[..i]).sessions[id].user == user
    ensures var u := Run(life, events[..j]);
            && (forall claims: Claims, now: int :: claims.session == id ==> !Authenticates(u, claims, now))
            && (id in u.sessions ==>
                  forall csrfHash: Id, next: Id, nextHash: Id, nextCsrf: Id, now: int ::
                    !RotateSession(u, life, u.sessions[id].refreshHash, csrfHash, next, nextHash, nextCsrf, now).1.Rotated?)
  {
    hide Run, InFamilies, OneLive, NotAhead, VersionsGrow, Dead;
    RunSound(life, events[..i]);
    RunSound(life, events[..j]);
    Prefix(life, events, i, j);
    RunLater(life, events[..j], i + 1, 0);
    var r, u := Run(life, events[..i + 1]), Run(life, events[..j]);
    assert id in r.sessions && r.sessions[id].revokedAt.Some?;
    RunSound(life, events[..i + 1]);
    assert id in u.sessions ==> Follows(r.sessions[id], u.sessions[id]);
  }

  // A login reads the user before its session is opened, and nothing compares the two versions. A login begun before
  // a password change and opened after it therefore starts a family that survives the change.

  /** Event `b` is the read that begins the login. */
  ghost predicate BeginsAt(life: Lifetimes, events: seq<Timed>, b: nat, login: Id)
    requires b < |events|
  {
    var e := events[b].event;
    e.BeginsLogin? && e.login == login && MayUse(Run(life, events[..b]).users, e.user)
  }

  /** Event `k` opens the session of a login that read the user before event `i`. */
  ghost predicate OpensStale(life: Lifetimes, events: seq<Timed>, i: nat, k: nat, user: Id)
    requires i < k < |events|
  {
    var t, e := Run(life, events[..k]), events[k].event;
    && e.Opens? && e.login in t.logins && t.logins[e.login].user == user
    && e.family !in t.families && Fresh(t, t.logins[e.login].session, e.refreshHash)
    && forall b :: i < b < k ==> !BeginsAt(life, events, b, e.login)
  }

  /** By event `j`, the family was begun with what the user knew before event `i`. */
  ghost predicate BegunBefore(life: Lifetimes, events: seq<Timed>, i: nat, j: nat, user: Id, family: Id)
    requires i < j <= |events|
  {
    || (family in Run(life, events[..i]).families && Run(life, events[..i]).families[family].user == user)
    || exists k :: i < k < j && OpensStale(life, events, i, k, user) && events[k].event.family == family
  }

  /** At event `j` no family begun before event `i` has a session that can still be used. */
  ghost predicate EndedBy(life: Lifetimes, events: seq<Timed>, i: nat, j: nat, user: Id)
    requires i < j <= |events|
  {
    var u := Run(life, events[..j]);
    forall id :: id in u.sessions && BegunBefore(life, events, i, j, user, u.sessions[id].family) ==> !Live(u.sessions[id])
  }

  /**
   * A new password ends everything begun with the old one exactly when no login that read the user before it is
   * opened after it.
   */
  lemma {:induction false} PasswordEndsIff(life: Lifetimes, events: seq<Timed>, i: nat, user: Id)
    requires i < |events| && NewPasswordAt(life, events, i, user)
    ensures (forall j :: i < j <= |events| ==> EndedBy(life, events, i, j, user)) <==>
            (forall k :: i < k < |events| ==> !OpensStale(life, events, i, k, user))
  {
    hide Run, NewPasswordAt, OpensStale, BegunBefore;
    if forall k :: i < k < |events| ==> !OpensStale(life, events, i, k, user) {
      forall j | i < j <= |events| ensures EndedBy(life, events, i, j, user) {
        forall id | id in Run(life, events[..j]).sessions
                    && BegunBefore(life, events, i, j, user, Run(life, events[..j]).sessions[id].family)
          ensures !Live(Run(life, events[..j]).sessions[id])
        {
          EarlierFamilyDead(life, events, i, j, user, Run(life, events[..j]).sessions[id].family);
        }
      }
    } else {
      var k :| i < k < |events| && OpensStale(life, events, i, k, user);
      StaleLives(life, events, i, k, user);
    }
  }

  lemma {:induction false} EarlierFamilyDead(life: Lifetimes, events: seq<Timed>, i: nat, j: nat, user: Id, family: Id)
    requires i < j <= |events| && NewPasswordAt(life, events, i, user) && BegunBefore(life, events, i, j, user, family)
    requires forall k :: i < k < |events| ==> !OpensStale(life, events, i, k, user)
    ensures Dead(Run(life, events[..j]), family)
  {
    hide Run, OneLive, Indexed, NotAhead, OpensStale, Later;
    RunSound(life, events[..i]);
    Prefix(life, events, i, j);
    assert Dead(Run(life, events[..i + 1]), family);
    RunLater(life, events[..j], i + 1, family);
  }

  lemma StaleLives(life: Lifetimes, events: seq<Timed>, i: nat, k: nat, user: Id)
    requires i < k < |events| && OpensStale(life, events, i, k, user)
    ensures !EndedBy(life, events, i, k + 1, user)
  {
    hide Run, BeginsAt;
    Prefix(life, events, k, k + 1);
    var t, u := Run(life, events[..k]), Run(life, events[..k + 1]);
    var id := t.logins[events[k].event.login].session;
    assert id in u.sessions && Live(u.sessions[id]) && u.sessions[id].family == events[k].event.family;
    assert BegunBefore(life, events, i, k + 1, user, u.sessions[id].family);
  }

  /** Whether a login read the user before the new password shows in the version it read. */
  lemma {:induction false} ReadBeforeIff(life: Lifetimes, events: seq<Timed>, i: nat, k: nat, login: Id, user: Id)
    requires i < k <= |events| && NewPasswordAt(life, events, i, user)
    requires login in Run(life, events[..k]).logins && Run(life, events[..k]).logins[login].user == user
    ensures (forall b :: i < b < k ==> !BeginsAt(life, events, b, login)) <==>
            Run(life, events[..k]).logins[login].version <= Run(life, events[..i]).users[user].version
  {
    hide Run, BeginsAt, InFamilies, OneLive, Indexed, Later;
    LoginSince(life, events, i, k, login);
    NewVersion(life, events, i, user);
    RunSound(life, events[..i]);
  }

  lemma {:induction false} NewVersion(life: Lifetimes, events: seq<Timed>, i: nat, user: Id)
    requires i < |events| && NewPasswordAt(life, events, i, user)
    ensures var t, r := Run(life, events[..i]), Run(life, events[..i + 1]);
            r.logins == t.logins && user in r.users && r.users[user].version == t.users[user].version + 1
  {
    hide Run, RevokeUser;
    Prefix(life, events, i, i + 1);
  }

  /** A login in progress was begun before event `i` and not since, or it read a version at least as new as then. */
  lemma {:induction false} LoginSince(life: Lifetimes, events: seq<Timed>, i: nat, k: nat, login: Id)
    requires i < k <= |events| && !events[i].event.BeginsLogin? && login in Run(life, events[..k]).logins
    ensures var r, u := Run(life, events[..i + 1]), Run(life, events[..k]);
            if forall b :: i < b < k ==> !BeginsAt(life, events, b, login)
            then login in r.logins && u.logins[login] == r.logins[login]
            else u.logins[login].user in r.users ==> u.logins[login].version >= r.users[u.logins[login].user].version
    decreases k
  {
    hide Run, Step, Sound, Dead, SessionsFollow;
    if k > i + 1 {
      Prefix(life, events, k - 1, k);
      LoginKept(Run(life, events[..k - 1]), life, events[k - 1], login);
      if BeginsAt(life, events, k - 1, login) {
        assert events[..k - 1][..i + 1] == events[..i + 1];
        RunLater(life, events[..k - 1], i + 1, 0);
      } else {
        LoginSince(life, events, i, k - 1, login);
      }
    }
  }

  lemma OtherLogins(t: Store, life: Lifetimes, e: Timed)
    requires !e.event.BeginsLogin? && !e.event.Opens? && !e.event.Rotates?
    ensures Step(t, life, e).logins == t.logins
  {
    hide ConsumePasswordReset, CreateChallenge, RotateSession, CreateSession, BeginLogin, ChangePassword, Clean, Forget;
    match e.event
    case ChangesPassword(user) => ChangeKeepsLogins(t, user, e.now);
    case AsksReset(user, tokenHash, maxAttempts, expiresAt) =>
      AskKeepsLogins(t, user, tokenHash, maxAttempts, expiresAt, e.now);
    case Resets(tokenHash) => ResetKeepsLogins(t, tokenHash, e.now);
    case Cleans(ids) => CleanupKeepsLogins(t, ids, e.now);
    case Forgets(tokens) => CleanupKeepsLogins(t, tokens, e.now);
    case _ =>
  }

  lemma ChangeKeepsLogins(t: Store, user: Id, now: int)
    ensures ChangePassword(t, user, now).logins == t.logins
  {
    hide RevokeUser;
  }

  lemma AskKeepsLogins(t: Store, user: Id, tokenHash: Id, maxAttempts: nat, expiresAt: int, now: int)
    ensures CreateChallenge(t, user, tokenHash, maxAttempts, expiresAt, now).logins == t.logins
  {
    hide ConsumeOlder;
  }

  lemma ResetKeepsLogins(t: Store, tokenHash: Id, now: int)
    ensures ConsumePasswordReset(t, tokenHash, now).0.logins == t.logins
  {
    hide RevokeUser, Usable;
  }

  lemma CleanupKeepsLogins(t: Store, ids: set<Id>, now: int)
    ensures Clean(t, ids, now).logins == Forget(t, ids, now).logins == t.logins
  {
    hide Expendable, Outdated;
  }

  /** Only beginning it again changes what a login in progress has read. */
  lemma LoginKept(t: Store, life: Lifetimes, e: Timed, login: Id)
    requires login in Step(t, life, e).logins
    ensures var r := Step(t, life, e);
            if e.event.BeginsLogin? && e.event.login == login && MayUse(t.users, e.event.user)
            then r.logins[login].user == e.event.user && r.logins[login].version == t.users[e.event.user].version
            else login in t.logins && r.logins[login] == t.logins[login]
  {
    hide RevokeUser, RotateSession, CreateSession, Clean, Forget, CreateChallenge;
    match e.event
    case Opens(l, family, refreshHash, csrfHash) => OpenKeeps(t, life, l, family, refreshHash, csrfHash, e.now);
    case Rotates(oldHash, csrfHash, next, nextHash, nextCsrf) =>
      RotateKeeps(t, life, oldHash, csrfHash, next, nextHash, nextCsrf, e.now);
    case BeginsLogin(l, user, session) =>
    case _ => OtherLogins(t, life, e);
  }

  /** What an exchange hands out is accepted at once, whatever password the family was begun with. */
  lemma ExchangeAccepted(t: Store, life: Lifetimes, oldHash: Id, csrfHash: Id, next: Id, nextHash: Id, nextCsrf: Id,
                         now: int, claims: Claims)
    requires RotateSession(t, life, oldHash, csrfHash, next, nextHash, nextCsrf, now).1 == Rotated(claims)
    ensures Authenticates(RotateSession(t, life, oldHash, csrfHash, next, nextHash, nextCsrf, now).0, claims, now)
            <==> life.idle > 0 && life.absolute > 0
  {
  }

  const STALE := [Timed(0, Registers(1)), Timed(0, Stands(1, true, true)), Timed(0, BeginsLogin(1, 1, 10)),
                  Timed(0, ChangesPassword(1)), Timed(0, Opens(1, 5, 100, 200)),
                  Timed(0, Rotates(100, 200, 11, 101, 201))]

  /** A login that read the old password is opened after the change, and its first exchange is accepted. */
  lemma StaleLoginSurvives()
    ensures exists life: Lifetimes, events: seq<Timed>, i: nat, user: Id, claims: Claims ::
              && i < |events| && NewPasswordAt(life, events, i, user) && claims.user == user
              && (forall b :: i < b < |events| ==> !events[b].event.BeginsLogin?)
              && Authenticates(Run(life, events), claims, 0)
  {
    hide Run, Step;
    var life := Lifetimes(10, 10);
    StaleRun(life);
    assert NewPasswordAt(life, STALE, 3, 1);
    assert forall b :: 3 < b < |STALE| ==> !STALE[b].event.BeginsLogin?;
    assert Claims(1, 11, 1).user == 1;
  }

  const BEGUN := EmptyStore.(users := map[1 := User(true, true, 0)], logins := map[1 := Claims(1, 10, 0)])
  const ENTERED := Store(map[1 := User(true, true, 1)], map[10 := Session(1, 5, 100, 200, 10, 10, None, None)],
                         map[100 := 10], map[], map[5 := Family(1, 10)], {10}, {100}, {}, map[], {Claims(1, 10, 0)})

  lemma {:induction false} StaleRun(life: Lifetimes)
    requires life == Lifetimes(10, 10)
    ensures 1 in Run(life, STALE[..3]).users && Authenticates(Run(life, STALE), Claims(1, 11, 1), 0)
  {
    hide Authenticates, Step;
    StaleBegins(life);
    StaleEnters(life);
    Prefix(life, STALE, 3, 4);
    Prefix(life, STALE, 4, 5);
    Prefix(life, STALE, 5, 6);
    assert STALE[..6] == STALE;
    StaleExchange(life);
  }

  lemma {:induction false} StaleBegins(life: Lifetimes)
    ensures Run(life, STALE[..3]) == BEGUN
  {
    Prefix(life, STALE, 0, 1);
    Prefix(life, STALE, 1, 2);
    Prefix(life, STALE, 2, 3);
    assert STALE[..0] == [];
    assert Run(life, STALE[..1]) == EmptyStore.(users := map[1 := User(false, false, 0)]);
    assert Run(life, STALE[..2]) == EmptyStore.(users := map[1 := User(true, true, 0)]);
  }

  lemma StaleEnters(life: Lifetimes)
    requires life == Lifetimes(10, 10)
    ensures Step(Step(BEGUN, life, STALE[3]), life, STALE[4]) == ENTERED
  {
    assert Step(BEGUN, life, STALE[3]) == BEGUN.(users := map[1 := User(true, true, 1)]);
  }

  lemma StaleExchange(life: Lifetimes)
    requires life == Lifetimes(10, 10)
    ensures Authenticates(Step(ENTERED, life, STALE[5]), Claims(1, 11, 1), 0)
  {
    hide Authenticates, Insert;
    assert RotateSession(ENTERED, life, 100, 200, 11, 101, 201, 0).1 == Rotated(Claims(1, 11, 1));
    ExchangeAccepted(ENTERED, life, 100, 200, 11, 101, 201, 0, Claims(1, 11, 1));
  }

  // Reset challenges.

  /** Event `i` of the run sets a new password with this challenge. */
  ghost predicate ResetsAt(life: Lifetimes, events: seq<Timed>, i: nat, tokenHash: Id)
    requires i < |events|
  {
    events[i].event == Resets(tokenHash) && ConsumePasswordReset(Run(life, events[..i]), tokenHash, events[i].now).1
  }

  predicate Spent(t: Store, tokenHash: Id) {
    tokenHash in t.usedTokens && (tokenHash in t.challenges ==> t.challenges[tokenHash].consumedAt.Some?)
  }

  lemma StepTokens(t: Store, life: Lifetimes, e: Timed, tokenHash: Id)
    ensures Spent(t, tokenHash) ==> Spent(Step(t, life, e), tokenHash)
    ensures t.challenges.Keys <= t.usedTokens ==> Step(t, life, e).challenges.Keys <= Step(t, life, e).usedTokens
  {
    hide RevokeUser, CreateSession, RotateSession, Clean, Register, SetStanding, BeginLogin;
    match e.event
    case AsksReset(user, token, maxAttempts, expiresAt) =>
    case Resets(token) =>
    case Forgets(tokens) =>
    case _ => TokensUntouched(t, life, e);
  }

  lemma TokensUntouched(t: Store, life: Lifetimes, e: Timed)
    requires !e.event.AsksReset? && !e.event.Resets? && !e.event.Forgets?
    ensures Step(t, life, e).challenges == t.challenges && Step(t, life, e).usedTokens == t.usedTokens
  {
    hide RevokeUser, MayUse, RotateSession, CreateSession;
    match e.event
    case Opens(login, family, refreshHash, csrfHash) => OpenKeeps(t, life, login, family, refreshHash, csrfHash, e.now);
    case Rotates(oldHash, csrfHash, next, nextHash, nextCsrf) =>
      RotateKeeps(t, life, oldHash, csrfHash, next, nextHash, nextCsrf, e.now);
    case _ =>
  }

  lemma OpenKeeps(t: Store, life: Lifetimes, login: Id, family: Id, refreshHash: Id, csrfHash: Id, now: int)
    ensures var r := CreateSession(t, life, login, family, refreshHash, csrfHash, now);
            r == t.(sessions := r.sessions, byHash := r.byHash, usedSessions := r.usedSessions, usedHashes := r.usedHashes,
                    families := r.families, logins := r.logins, issued := r.issued)
            && (r.logins == t.logins || r.logins == t.logins - {login})
  {
    hide Fresh, Min;
  }

  lemma RotateKeeps(t: Store, life: Lifetimes, oldHash: Id, csrfHash: Id, next: Id, nextHash: Id, nextCsrf: Id, now: int)
    ensures var r := RotateSession(t, life, oldHash, csrfHash, next, nextHash, nextCsrf, now).0;
            r == t.(sessions := r.sessions, byHash := r.byHash, usedSessions := r.usedSessions, usedHashes := r.usedHashes,
                    issued := r.issued)
  {
    hide Fresh, Min, Rotatable, RevokeFamily;
  }

  lemma {:induction false} RunTokens(life: Lifetimes, events: seq<Timed>, i: nat, tokenHash: Id)
    requires i <= |events|
    ensures Run(life, events).challenges.Keys <= Run(life, events).usedTokens
    ensures Spent(Run(life, events[..i]), tokenHash) ==> Spent(Run(life, events), tokenHash)
    decreases |events|
  {
    hide Step, Spent;
    if i == |events| {
      assert events[..i] == events;
    }
    if events != [] {
      var init := events[..|events| - 1];
      RunTokens(life, init, if i < |events| then i else 0, tokenHash);
      StepTokens(Run(life, init), life, events[|events| - 1], tokenHash);
      assert i < |events| ==> init[..i] == events[..i];
    }
  }

  /** A reset challenge gives a new password at most once: using it again, however much later, changes nothing. */
  lemma {:induction false} ResetOnce(life: Lifetimes, events: seq<Timed>, i: nat, j: nat, tokenHash: Id)
    requires i < j < |events| && ResetsAt(life, events, i, tokenHash) && events[j].event == Resets(tokenHash)
    ensures !ResetsAt(life, events, j, tokenHash) && Run(life, events[..j + 1]) == Run(life, events[..j])
  {
    hide Run, RevokeUser;
    RunTokens(life, events[..i], 0, tokenHash);
    Prefix(life, events, i, j);
    Prefix(life, events, j, j + 1);
    assert Spent(Run(life, events[..i + 1]), tokenHash);
    RunTokens(life, events[..j], i + 1, tokenHash);
  }
}
