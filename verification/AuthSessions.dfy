/**
 * Users, refresh-token sessions and password-reset challenges, and what each repository transaction does to them.
 *
 * Hashes of tokens stand for the tokens. Random identifiers and hashes are fresh: one that was ever used before is
 * refused, which `usedSessions`, `usedHashes`, `usedTokens` and `families` record. Times are seconds; the clock is an
 * argument.
 */
module AuthSessions {
  import opened Prelude

  datatype User = User(active: bool, emailVerified: bool, version: nat)
  datatype Session = Session(user: Id, family: Id, refreshHash: Id, csrfHash: Id, expiresAt: int, absoluteExpiresAt: int,
                             rotatedAt: Option<int>, revokedAt: Option<int>)
  datatype Family = Family(user: Id, absoluteExpiresAt: int)
  datatype Challenge = Challenge(user: Id, expiresAt: int, consumedAt: Option<int>, attempts: nat, maxAttempts: nat)
  /** What an access token says; its signature is taken to be unforgeable. */
  datatype Claims = Claims(user: Id, session: Id, version: nat)
  /** How long a session may idle, and how long a family may live. */
  datatype Lifetimes = Lifetimes(idle: nat, absolute: nat)

  datatype Store = Store(
    users: map<Id, User>,
    sessions: map<Id, Session>,
    byHash: map<Id, Id>,
    challenges: map<Id, Challenge>,
    families: map<Id, Family>,
    usedSessions: set<Id>,
    usedHashes: set<Id>,
    usedTokens: set<Id>,
    logins: map<Id, Claims>,
    issued: set<Claims>)

  const EmptyStore := Store(map[], map[], map[], map[], map[], {}, {}, {}, map[], {})

  datatype Outcome = Rotated(claims: Claims) | Reused | Invalid | Collision

  function Min(a: int, b: int): int {
    if a < b then a else b
  }

  predicate MayUse(users: map<Id, User>, user: Id) {
    user in users && users[user].active && users[user].emailVerified
  }

  predicate Live(s: Session) {
    s.rotatedAt.None? && s.revokedAt.None?
  }

  function Register(t: Store, user: Id): Store {
    if user in t.users then t else t.(users := t.users[user := User(false, false, 0)])
  }

  /** Verification, locking and administration change a user's standing, never the token version. */
  function SetStanding(t: Store, user: Id, active: bool, emailVerified: bool): Store {
    if user !in t.users then t else t.(users := t.users[user := t.users[user].(active := active, emailVerified := emailVerified)])
  }

  /** A login reads the user, version included, some time before its session is opened. */
  function BeginLogin(t: Store, login: Id, user: Id, session: Id): Store {
    if !MayUse(t.users, user) then t else t.(logins := t.logins[login := Claims(user, session, t.users[user].version)])
  }

  predicate Fresh(t: Store, session: Id, refreshHash: Id) {
    session !in t.usedSessions && refreshHash !in t.usedHashes && session !in t.sessions && refreshHash !in t.byHash
  }

  function Insert(t: Store, id: Id, session: Session): Store {
    t.(sessions := t.sessions[id := session], byHash := t.byHash[session.refreshHash := id],
       usedSessions := t.usedSessions + {id}, usedHashes := t.usedHashes + {session.refreshHash})
  }

  function CreateSession(t: Store, life: Lifetimes, login: Id, family: Id, refreshHash: Id, csrfHash: Id,
                         now: int): Store {
    if login !in t.logins || family in t.families || !Fresh(t, t.logins[login].session, refreshHash) then t
    else
      var claims := t.logins[login];
      var absolute := now + life.absolute;
      var session := Session(claims.user, family, refreshHash, csrfHash, Min(now + life.idle, absolute), absolute, None, None);
      Insert(t, claims.session, session)
        .(families := t.families[family := Family(claims.user, absolute)], logins := t.logins - {login},
          issued := t.issued + {claims})
  }

  predicate Rotatable(t: Store, s: Session, csrfHash: Id, now: int) {
    s.revokedAt.None? && s.csrfHash == csrfHash && s.expiresAt > now && s.absoluteExpiresAt > now && MayUse(t.users, s.user)
  }

  /** A revoked session keeps its first time of revocation. */
  function Revoked(s: Session, now: int): Session {
    if s.revokedAt.Some? then s else s.(revokedAt := Some(now))
  }

  function RevokeFamily(sessions: map<Id, Session>, family: Id, now: int): map<Id, Session> {
    map id | id in sessions :: if sessions[id].family == family then Revoked(sessions[id], now) else sessions[id]
  }

  function RevokeUser(sessions: map<Id, Session>, user: Id, now: int): map<Id, Session> {
    map id | id in sessions :: if sessions[id].user == user then Revoked(sessions[id], now) else sessions[id]
  }

  /** A refresh token that was already exchanged revokes its whole family. */
  function RotateSession(t: Store, life: Lifetimes, oldHash: Id, csrfHash: Id, next: Id, nextHash: Id, nextCsrf: Id,
                         now: int)
    : (Store, Outcome)
  {
    if oldHash !in t.byHash || t.byHash[oldHash] !in t.sessions then (t, Invalid)
    else
      var id := t.byHash[oldHash];
      var s := t.sessions[id];
      if s.rotatedAt.Some? then (t.(sessions := RevokeFamily(t.sessions, s.family, now)), Reused)
      else if !Rotatable(t, s, csrfHash, now) then (t, Invalid)
      else if !Fresh(t, next, nextHash) then (t, Collision)
      else
        var claims := Claims(s.user, next, t.users[s.user].version);
        var marked := t.(sessions := t.sessions[id := s.(rotatedAt := Some(now))]);
        var expires := Min(Min(now + life.idle, now + life.absolute), s.absoluteExpiresAt);
        var session := Session(s.user, s.family, nextHash, nextCsrf, expires, s.absoluteExpiresAt, None, None);
        (Insert(marked, next, session).(issued := t.issued + {claims}), Rotated(claims))
  }

  function RevokeSession(t: Store, user: Id, id: Id, now: int): Store {
    if id !in t.sessions || t.sessions[id].user != user then t
    else t.(sessions := t.sessions[id := Revoked(t.sessions[id], now)])
  }

  function RevokeAllSessions(t: Store, user: Id, now: int): Store {
    t.(sessions := RevokeUser(t.sessions, user, now))
  }

  function ChangePassword(t: Store, user: Id, now: int): Store {
    if user !in t.users then t else
      t.(users := t.users[user := t.users[user].(version := t.users[user].version + 1)],
         sessions := RevokeUser(t.sessions, user, now))
  }

  /** A consumed challenge keeps its first time of consumption. */
  function Consumed(c: Challenge, now: int): Challenge {
    if c.consumedAt.Some? then c else c.(consumedAt := Some(now))
  }

  function ConsumeOlder(challenges: map<Id, Challenge>, user: Id, now: int): map<Id, Challenge> {
    map h | h in challenges :: if challenges[h].user == user then Consumed(challenges[h], now) else challenges[h]
  }

  /** Asking again for a reset uses up the challenges asked for before. */
  function CreateChallenge(t: Store, user: Id, tokenHash: Id, maxAttempts: nat, expiresAt: int, now: int): Store {
    if user !in t.users || tokenHash in t.usedTokens then t
    else
      var older := ConsumeOlder(t.challenges, user, now);
      t.(challenges := older[tokenHash := Challenge(user, expiresAt, None, 0, maxAttempts)],
         usedTokens := t.usedTokens + {tokenHash})
  }

  predicate Usable(c: Challenge, now: int) {
    c.consumedAt.None? && c.attempts < c.maxAttempts && c.expiresAt > now
  }

  function ConsumePasswordReset(t: Store, tokenHash: Id, now: int): (Store, bool) {
    if tokenHash !in t.challenges then (t, false)
    else
      var c := t.challenges[tokenHash];
      if c.user !in t.users || !t.users[c.user].active || !Usable(c, now) then (t, false)
      else (ChangePassword(t.(challenges := t.challenges[tokenHash := c.(consumedAt := Some(now))]), c.user, now), true)
  }

  const DAY := 86400

  predicate Expendable(s: Session, now: int) {
    s.absoluteExpiresAt < now - 30 * DAY || (s.revokedAt.Some? && s.revokedAt.value < now - 30 * DAY)
  }

  /** Cleanup deletes long dead sessions, whichever of them it picks up this time. */
  function Clean(t: Store, ids: set<Id>, now: int): Store {
    var gone := set id | id in t.sessions && id in ids && Expendable(t.sessions[id], now);
    t.(sessions := t.sessions - gone, byHash := t.byHash - set id | id in gone :: t.sessions[id].refreshHash)
  }

  predicate Outdated(c: Challenge, now: int) {
    c.expiresAt < now - DAY || (c.consumedAt.Some? && c.consumedAt.value < now - DAY)
  }

  /** It also forgets challenges that expired or were consumed more than a day ago. */
  function Forget(t: Store, tokens: set<Id>, now: int): Store {
    t.(challenges := t.challenges - set h | h in t.challenges && h in tokens && Outdated(t.challenges[h], now))
  }

  /** Whether an access token is accepted. */
  predicate Authenticates(t: Store, claims: Claims, now: int) {
    && MayUse(t.users, claims.user) && claims.session in t.sessions
    && var s := t.sessions[claims.session];
       && s.user == claims.user && Live(s) && s.expiresAt > now && s.absoluteExpiresAt > now
       && t.users[claims.user].version == claims.version
  }

  datatype Event =
    | Registers(user: Id)
    | Stands(user: Id, active: bool, emailVerified: bool)
    | BeginsLogin(login: Id, user: Id, session: Id)
    | Opens(login: Id, family: Id, refreshHash: Id, csrfHash: Id)
    | Rotates(oldHash: Id, csrfHash: Id, next: Id, nextHash: Id, nextCsrf: Id)
    | Revokes(user: Id, session: Id)
    | RevokesAll(user: Id)
    | ChangesPassword(user: Id)
    | AsksReset(user: Id, tokenHash: Id, maxAttempts: nat, expiresAt: int)
    | Resets(tokenHash: Id)
    | Cleans(ids: set<Id>)
    | Forgets(tokens: set<Id>)

  datatype Timed = Timed(now: int, event: Event)

  function Step(t: Store, life: Lifetimes, e: Timed): Store {
    match e.event
    case Registers(user) => Register(t, user)
    case Stands(user, active, emailVerified) => SetStanding(t, user, active, emailVerified)
    case BeginsLogin(login, user, session) => BeginLogin(t, login, user, session)
    case Opens(login, family, refreshHash, csrfHash) => CreateSession(t, life, login, family, refreshHash, csrfHash, e.now)
    case Rotates(oldHash, csrfHash, next, nextHash, nextCsrf) =>
      RotateSession(t, life, oldHash, csrfHash, next, nextHash, nextCsrf, e.now).0
    case Revokes(user, session) => RevokeSession(t, user, session, e.now)
    case RevokesAll(user) => RevokeAllSessions(t, user, e.now)
    case ChangesPassword(user) => ChangePassword(t, user, e.now)
    case AsksReset(user, tokenHash, maxAttempts, expiresAt) =>
      CreateChallenge(t, user, tokenHash, maxAttempts, expiresAt, e.now)
    case Resets(tokenHash) => ConsumePasswordReset(t, tokenHash, e.now).0
    case Cleans(ids) => Clean(t, ids, e.now)
    case Forgets(tokens) => Forget(t, tokens, e.now)
  }

  function Run(life: Lifetimes, events: seq<Timed>): Store {
    if events == [] then EmptyStore else Step(Run(life, events[..|events| - 1]), life, events[|events| - 1])
  }
}
