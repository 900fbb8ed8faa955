/**
 * Chess matches: invitations, moves under optimistic concurrency, clocks, draw offers and timeouts.
 *
 * The rules of chess are an oracle that says what a move leads to. A transaction may read the clock several times:
 * once to see whether time has run out, once to charge the turn, and once in the database to start the next one.
 * Times are milliseconds.
 */
module ChessMatches {
  import opened Prelude

  datatype Color = White | Black
  /** A position: whose turn it is, what is on the board, and whether nobody has enough material left to mate. */
  datatype Position = Position(turn: Color, board: Id, insufficient: bool)
  datatype Result = WhiteWins | BlackWins | Drawn
  /** How the rules of chess end a game: by mate, or by one of the rules that make it a draw. */
  datatype BoardEnd = Checkmate | DrawByRule(rule: Id)
  datatype Termination = OnBoard(end: BoardEnd) | Resignation | Agreement | Timeout | TimeoutDraw
  datatype Status = Waiting | Active | Complete | Cancelled | Declined | Expired

  /** What a legal move leads to; the side to move always changes. */
  datatype Played = Played(next: Position, ending: Option<BoardEnd>)

  datatype MoveRow = MoveRow(version: nat, user: Id, color: Color, after: Position)

  /** What changed a match, in order; `cost` is what a finished turn took off its player's clock. */
  datatype Act =
    | Moved(user: Id, cost: nat)
    | Offered(user: Id)
    | Withdrew(user: Id)
    | Agreed(user: Id)
    | Resigned(user: Id)
    | Flagged(cost: nat)

  datatype Match = Match(
    createdBy: Id, black: Option<Id>, invite: Option<Id>, inviteExpires: Option<int>, status: Status, position: Position,
    version: nat, timeControl: nat, whiteMs: nat, blackMs: nat, turnStarted: Option<int>, drawOfferedBy: Option<Id>,
    result: Option<Result>, termination: Option<Termination>, startedAt: Option<int>, completedAt: Option<int>,
    moves: seq<MoveRow>, acts: seq<Act>)

  /** `byInvite` is the unique index on invitation tokens. */
  datatype Store = Store(matches: map<Id, Match>, byInvite: map<Id, Id>)

  const EmptyStore := Store(map[], map[])
  const START := Position(White, 0, false)
  const INVITE_TTL := 24 * 60 * 60 * 1000

  /** The three readings of one transaction. */
  datatype Readings = Readings(guard: int, charge: int, database: int)

  datatype Reply =
    | Ok
    | InviteNotFound
    | InviteClosed
    | InviteExpired
    | SelfInvite
    | MatchNotFound
    | NotOwner
    | NotAPlayer
    | NotActive
    | StalePosition
    | OutOfTurn
    | IllegalMove
    | StateInvalid
    | ConstraintViolated
    | TimedOut

  function Other(c: Color): Color {
    if c == White then Black else White
  }

  function Elapsed(start: int, now: int): nat {
    if now < start then 0 else now - start
  }

  function Left(clock: nat, spent: nat): nat {
    if spent < clock then clock - spent else 0
  }

  function ClockOf(m: Match, c: Color): nat {
    if c == White then m.whiteMs else m.blackMs
  }

  function WithClock(m: Match, c: Color, ms: nat): Match {
    if c == White then m.(whiteMs := ms) else m.(blackMs := ms)
  }

  function PlayerOf(m: Match, user: Id): Option<Color> {
    if m.createdBy == user then Some(White) else if m.black == Some(user) then Some(Black) else None
  }

  predicate HasExpired(m: Match, now: int) {
    m.inviteExpires.Some? && m.inviteExpires.value <= now
  }

  /** What a viewer sees on both clocks. */
  function ClockSnapshot(m: Match, now: int): Option<(nat, nat)> {
    if m.status != Active then Some((m.whiteMs, m.blackMs))
    else if m.turnStarted.None? then None
    else
      var left := Left(ClockOf(m, m.position.turn), Elapsed(m.turnStarted.value, now));
      Some(if m.position.turn == White then (left, m.blackMs) else (m.whiteMs, left))
  }

  function Written(s: Store, id: Id, m: Match): Store {
    s.(matches := s.matches[id := m])
  }

  // Invitations.

  function CreateInvite(s: Store, id: Id, user: Id, seconds: nat, token: Id, now: int): (Store, Reply) {
    if seconds !in {300, 600, 900} || id in s.matches || token in s.byInvite then (s, ConstraintViolated)
    else
      var m := Match(user, None, Some(token), Some(now + INVITE_TTL), Waiting, START, 0, seconds * 1000, seconds * 1000,
                     seconds * 1000, None, None, None, None, None, None, [], []);
      (Store(s.matches[id := m], s.byInvite[token := id]), Ok)
  }

  /** A waiting invitation ends in some way other than play. */
  function Closed(s: Store, id: Id, status: Status): Store
    requires id in s.matches
  {
    var m := s.matches[id];
    Store(s.matches[id := m.(status := status, invite := None, inviteExpires := None)],
          if m.invite.Some? then s.byInvite - {m.invite.value} else s.byInvite)
  }

  function AcceptInvite(s: Store, token: Id, user: Id, r: Readings): (Store, Reply) {
    if token !in s.byInvite || s.byInvite[token] !in s.matches then (s, InviteNotFound)
    else
      var id := s.byInvite[token];
      var m := s.matches[id];
      if m.status != Waiting then (s, InviteClosed)
      else if HasExpired(m, r.guard) then (Closed(s, id, Expired), InviteExpired)
      else if m.createdBy == user then (s, SelfInvite)
      else
        var begun := m.(black := Some(user), status := Active, invite := None, inviteExpires := None,
                        startedAt := Some(r.database), turnStarted := Some(r.database));
        (Store(s.matches[id := begun], s.byInvite - {token}), Ok)
  }

  function DeclineInvite(s: Store, token: Id, user: Id, r: Readings): (Store, Reply) {
    if token !in s.byInvite || s.byInvite[token] !in s.matches then (s, InviteNotFound)
    else
      var id := s.byInvite[token];
      var m := s.matches[id];
      if m.status != Waiting then (s, InviteClosed)
      else if m.createdBy == user then (s, SelfInvite)
      else if HasExpired(m, r.guard) then (Closed(s, id, Expired), InviteExpired)
      else (Closed(s, id, Declined), Ok)
  }

  function CancelInvite(s: Store, id: Id, user: Id): (Store, Reply) {
    if id !in s.matches then (s, MatchNotFound)
    else if s.matches[id].createdBy != user then (s, NotOwner)
    else if s.matches[id].status != Waiting then (s, InviteClosed)
    else (Closed(s, id, Cancelled), Ok)
  }

  // Play.

  function Finished(m: Match, result: Result, termination: Termination, database: int, act: Act): Match {
    m.(status := Complete, result := Some(result), termination := Some(termination), version := m.version + 1,
       completedAt := Some(database), turnStarted := None, drawOfferedBy := None, acts := m.acts + [act])
  }

  function WinFor(c: Color): Result {
    if c == White then WhiteWins else BlackWins
  }

  /** The player to move has used up the clock; it is a draw when nobody could mate. */
  function FlagFallen(m: Match, r: Readings): Match {
    var turn := m.position.turn;
    var cost := ClockOf(m, turn);
    var (result, termination) := if m.position.insufficient then (Drawn, TimeoutDraw) else (WinFor(Other(turn)), Timeout);
    Finished(WithClock(m, turn, 0), result, termination, r.database, Flagged(cost))
  }

  predicate OutOfTime(m: Match, now: int) {
    m.status == Active && m.turnStarted.Some? && Elapsed(m.turnStarted.value, now) >= ClockOf(m, m.position.turn)
  }

  /** True only when it settled a match whose time had run out. */
  function ExpireOrTimeout(s: Store, id: Id, r: Readings): (Store, bool)
    requires id in s.matches
  {
    var m := s.matches[id];
    if m.status == Waiting && HasExpired(m, r.guard) then (Closed(s, id, Expired), false)
    else if OutOfTime(m, r.guard) then (Written(s, id, FlagFallen(m, r)), true)
    else (s, false)
  }

  function View(s: Store, id: Id, user: Id, r: Readings): (Store, Reply) {
    if id !in s.matches then (s, MatchNotFound)
    else if PlayerOf(s.matches[id], user).None? then (s, NotAPlayer)
    else (ExpireOrTimeout(s, id, r).0, Ok)
  }

  /** The match after a legal move by the player whose turn it is. */
  function AfterMove(m: Match, user: Id, color: Color, played: Played, charge: int, database: int): Match
    requires m.turnStarted.Some?
  {
    var base := ClockOf(m, color);
    var left := Left(base, Elapsed(m.turnStarted.value, charge));
    var moved := WithClock(m, color, left)
      .(position := played.next, version := m.version + 1, drawOfferedBy := None,
        moves := m.moves + [MoveRow(m.version + 1, user, color, played.next)], acts := m.acts + [Moved(user, base - left)]);
    match played.ending
    case None => moved.(turnStarted := Some(database))
    case Some(end) =>
      moved.(status := Complete, result := Some(if end == Checkmate then WinFor(color) else Drawn),
               termination := Some(OnBoard(end)),
             turnStarted := None, completedAt := Some(database))
  }

  function Move(s: Store, id: Id, user: Id, expectedVersion: nat, played: Option<Played>, r: Readings): (Store, Reply) {
    if id !in s.matches then (s, MatchNotFound)
    else
      var m := s.matches[id];
      match PlayerOf(m, user)
      case None => (s, NotAPlayer)
      case Some(color) =>
        if m.status != Active then (s, NotActive)
        else if m.version != expectedVersion then (s, StalePosition)
        else if m.turnStarted.None? then (s, StateInvalid)
        else if OutOfTime(m, r.guard) then (Written(s, id, FlagFallen(m, r)), TimedOut)
        else if color != m.position.turn then (s, OutOfTurn)
        else if played.None? || played.value.next.turn != Other(color) then (s, IllegalMove)
        else (Written(s, id, AfterMove(m, user, color, played.value, r.charge, r.database)), Ok)
  }

  function Resign(s: Store, id: Id, user: Id, r: Readings): (Store, Reply) {
    if id !in s.matches then (s, MatchNotFound)
    else
      var m := s.matches[id];
      match PlayerOf(m, user)
      case None => (s, NotAPlayer)
      case Some(color) =>
        if m.status != Active then (s, NotActive)
        else if OutOfTime(m, r.guard) then (Written(s, id, FlagFallen(m, r)), TimedOut)
        else (Written(s, id, Finished(m, WinFor(Other(color)), Resignation, r.database, Resigned(user))), Ok)
  }

  /** A second call by the player who offered takes the offer back; by the other player it ends the match. */
  function OfferOrAcceptDraw(s: Store, id: Id, user: Id, r: Readings): (Store, Reply) {
    if id !in s.matches then (s, MatchNotFound)
    else
      var m := s.matches[id];
      if PlayerOf(m, user).None? then (s, NotAPlayer)
      else if m.status != Active then (s, NotActive)
      else if OutOfTime(m, r.guard) then (Written(s, id, FlagFallen(m, r)), TimedOut)
      else if m.drawOfferedBy.Some? && m.drawOfferedBy.value != user
      then (Written(s, id, Finished(m, Drawn, Agreement, r.database, Agreed(user))), Ok)
      else
        var withdraws := m.drawOfferedBy == Some(user);
        (Written(s, id, m.(drawOfferedBy := if withdraws then None else Some(user), version := m.version + 1,
                           acts := m.acts + [if withdraws then Withdrew(user) else Offered(user)])), Ok)
  }

  datatype Event =
    | Invites(id: Id, user: Id, seconds: nat, token: Id)
    | Accepts(token: Id, user: Id)
    | Declines(token: Id, user: Id)
    | Cancels(id: Id, user: Id)
    | Views(id: Id, user: Id)
    | Plays(id: Id, user: Id, expectedVersion: nat, played: Option<Played>)
    | Resigns(id: Id, user: Id)
    | Draws(id: Id, user: Id)
    | Sweeps(id: Id)

  datatype Timed = Timed(readings: Readings, event: Event)

  function Step(s: Store, e: Timed): Store {
    match e.event
    case Invites(id, user, seconds, token) => CreateInvite(s, id, user, seconds, token, e.readings.guard).0
    case Accepts(token, user) => AcceptInvite(s, token, user, e.readings).0
    case Declines(token, user) => DeclineInvite(s, token, user, e.readings).0
    case Cancels(id, user) => CancelInvite(s, id, user).0
    case Views(id, user) => View(s, id, user, e.readings).0
    case Plays(id, user, expectedVersion, played) => Move(s, id, user, expectedVersion, played, e.readings).0
    case Resigns(id, user) => Resign(s, id, user, e.readings).0
    case Draws(id, user) => OfferOrAcceptDraw(s, id, user, e.readings).0
    case Sweeps(id) => if id in s.matches then ExpireOrTimeout(s, id, e.readings).0 else s
  }

  function Run(events: seq<Timed>): Store {
    if events == [] then EmptyStore else Step(Run(events[..|events| - 1]), events[|events| - 1])
  }
}
