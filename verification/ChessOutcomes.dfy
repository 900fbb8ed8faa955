/** Who wins a match and by what, and what each chess transaction comes to. */
module ChessOutcomes {
  import opened Prelude
  import opened ChessMatches
  import opened ChessRuns

  // How a match ends.

  /** The creator plays white, whoever accepted plays black. */
  predicate Plays(m: Match, user: Id, color: Color) {
    if color == White then user == m.createdBy else user != m.createdBy && m.black == Some(user)
  }

  ghost predicate LastAct(m: Match, act: Act) {
    |m.acts| > 0 && m.acts[|m.acts| - 1] == act
  }

  /** The last act is the last move. */
  ghost predicate JustMoved(m: Match) {
    && |m.moves| > 0 && |m.acts| > 0
    && var act := m.acts[|m.acts| - 1]; act.Moved? && act.user == m.moves[|m.moves| - 1].user
  }

  ghost predicate JustFlagged(m: Match) {
    |m.acts| > 0 && m.acts[|m.acts| - 1].Flagged?
  }

  /** Who resigned lost. */
  ghost predicate EndedByResignation(m: Match) {
    exists user :: LastAct(m, Resigned(user)) &&
      ((Plays(m, user, White) && m.result == Some(BlackWins)) || (Plays(m, user, Black) && m.result == Some(WhiteWins)))
  }

  /** Whose turn it was lost, unless nobody could mate. */
  ghost predicate EndedByTimeout(m: Match) {
    && JustFlagged(m) && !m.position.insufficient
    && m.result == Some(if m.position.turn == White then BlackWins else WhiteWins)
    && (if m.position.turn == White then m.whiteMs else m.blackMs) == 0
  }

  /** Whoever made the last move won. */
  ghost predicate EndedByMate(m: Match) {
    && JustMoved(m)
    && m.result == Some(if m.moves[|m.moves| - 1].color == White then WhiteWins else BlackWins)
    && Plays(m, m.moves[|m.moves| - 1].user, m.moves[|m.moves| - 1].color)
  }

  ghost predicate WellEnded(m: Match) {
    m.status == Complete ==>
      match m.termination
      case None => false
      case Some(Resignation) => EndedByResignation(m)
      case Some(Timeout) => EndedByTimeout(m)
      case Some(OnBoard(Checkmate)) => EndedByMate(m)
      case Some(OnBoard(DrawByRule(rule))) =>
        m.result == Some(Drawn) && JustMoved(m)
      case Some(Agreement) => m.result == Some(Drawn) && exists user :: LastAct(m, Agreed(user))
      case Some(TimeoutDraw) => m.result == Some(Drawn) && m.position.insufficient && JustFlagged(m)
  }

  ghost predicate AllWellEnded(s: Store) {
    forall id :: id in s.matches ==> WellEnded(s.matches[id])
  }

  lemma FlagEnds(m: Match, r: Readings)
    requires m.status == Active
    ensures WellEnded(FlagFallen(m, r))
  {
  }

  lemma ResignationEnds(m: Match, user: Id, color: Color, database: int)
    requires PlayerOf(m, user) == Some(color)
    ensures WellEnded(Finished(m, WinFor(Other(color)), Resignation, database, Resigned(user)))
  {
    var n := Finished(m, WinFor(Other(color)), Resignation, database, Resigned(user));
    assert LastAct(n, Resigned(user)) && Plays(n, user, color);
  }

  lemma AgreementEnds(m: Match, user: Id, database: int)
    ensures WellEnded(Finished(m, Drawn, Agreement, database, Agreed(user)))
  {
    assert LastAct(Finished(m, Drawn, Agreement, database, Agreed(user)), Agreed(user));
  }

  lemma MoveEnds(m: Match, user: Id, played: Played, charge: int, database: int)
    requires m.status == Active && m.turnStarted.Some? && PlayerOf(m, user) == Some(m.position.turn)
    ensures WellEnded(AfterMove(m, user, m.position.turn, played, charge, database))
  {
    var n := AfterMove(m, user, m.position.turn, played, charge, database);
    assert n.moves[|n.moves| - 1] == MoveRow(m.version + 1, user, m.position.turn, played.next);
  }

  lemma WrittenEnds(s: Store, id: Id, m: Match)
    requires AllWellEnded(s) && WellEnded(m)
    ensures AllWellEnded(Written(s, id, m))
  {
  }

  lemma ClosedEnds(s: Store, id: Id, status: Status)
    requires AllWellEnded(s) && id in s.matches && status != Complete
    ensures AllWellEnded(Closed(s, id, status))
  {
    hide WellEnded;
    assert WellEnded(s.matches[id].(status := status, invite := None, inviteExpires := None)) by {
      NotOver(s.matches[id].(status := status, invite := None, inviteExpires := None));
    }
  }

  lemma NotOver(m: Match)
    requires m.status != Complete
    ensures WellEnded(m)
  {
  }

  lemma TimeoutEnds(s: Store, id: Id, r: Readings)
    requires AllWellEnded(s) && id in s.matches
    ensures AllWellEnded(ExpireOrTimeout(s, id, r).0)
  {
    hide WellEnded, AllWellEnded, Closed, FlagFallen, Written;
    var m := s.matches[id];
    ClosedEnds(s, id, Expired);
    if OutOfTime(m, r.guard) {
      FlagEnds(m, r);
      WrittenEnds(s, id, FlagFallen(m, r));
    }
  }

  lemma MoveKeepsEnds(s: Store, id: Id, user: Id, expectedVersion: nat, played: Option<Played>, r: Readings)
    requires AllWellEnded(s)
    ensures AllWellEnded(Move(s, id, user, expectedVersion, played, r).0)
  {
    hide WellEnded, AllWellEnded, FlagFallen, AfterMove, Written;
    if id in s.matches && s.matches[id].status == Active {
      var m := s.matches[id];
      FlagEnds(m, r);
      WrittenEnds(s, id, FlagFallen(m, r));
      if m.turnStarted.Some? && PlayerOf(m, user) == Some(m.position.turn) && played.Some? {
        MoveEnds(m, user, played.value, r.charge, r.database);
        WrittenEnds(s, id, AfterMove(m, user, m.position.turn, played.value, r.charge, r.database));
      }
    }
  }

  lemma ResignKeepsEnds(s: Store, id: Id, user: Id, r: Readings)
    requires AllWellEnded(s)
    ensures AllWellEnded(Resign(s, id, user, r).0)
  {
    hide WellEnded, AllWellEnded, FlagFallen, Finished, Written;
    if id in s.matches && s.matches[id].status == Active && PlayerOf(s.matches[id], user).Some? {
      var m, color := s.matches[id], PlayerOf(s.matches[id], user).value;
      FlagEnds(m, r);
      WrittenEnds(s, id, FlagFallen(m, r));
      ResignationEnds(m, user, color, r.database);
      WrittenEnds(s, id, Finished(m, WinFor(Other(color)), Resignation, r.database, Resigned(user)));
    }
  }

  lemma DrawKeepsEnds(s: Store, id: Id, user: Id, r: Readings)
    requires AllWellEnded(s)
    ensures AllWellEnded(OfferOrAcceptDraw(s, id, user, r).0)
  {
    hide WellEnded, AllWellEnded, FlagFallen, Finished, Written;
    if id in s.matches && s.matches[id].status == Active {
      var m := s.matches[id];
      FlagEnds(m, r);
      WrittenEnds(s, id, FlagFallen(m, r));
      AgreementEnds(m, user, r.database);
      WrittenEnds(s, id, Finished(m, Drawn, Agreement, r.database, Agreed(user)));
      var withdraws := m.drawOfferedBy == Some(user);
      var offered := m.(drawOfferedBy := if withdraws then None else Some(user), version := m.version + 1,
                        acts := m.acts + [if withdraws then Withdrew(user) else Offered(user)]);
      NotOver(offered);
      WrittenEnds(s, id, offered);
    }
  }

  lemma AcceptKeepsEnds(s: Store, token: Id, user: Id, r: Readings)
    requires AllWellEnded(s)
    ensures AllWellEnded(AcceptInvite(s, token, user, r).0) && AllWellEnded(DeclineInvite(s, token, user, r).0)
  {
    hide WellEnded, Closed;
    if token in s.byInvite && s.byInvite[token] in s.matches {
      var id := s.byInvite[token];
      var m := s.matches[id];
      ClosedEnds(s, id, Expired);
      ClosedEnds(s, id, Declined);
      NotOver(m.(black := Some(user), status := Active, invite := None, inviteExpires := None,
                 startedAt := Some(r.database), turnStarted := Some(r.database)));
    }
  }

  lemma StepEnds(s: Store, e: Timed)
    requires AllWellEnded(s)
    ensures AllWellEnded(Step(s, e))
  {
    hide AllWellEnded, AcceptInvite, DeclineInvite, Closed, ExpireOrTimeout, Move, Resign, OfferOrAcceptDraw, CreateInvite;
    match e.event
    case Invites(id, user, seconds, token) => InviteKeepsEnds(s, id, user, seconds, token, e.readings.guard);
    case Accepts(token, user) => AcceptKeepsEnds(s, token, user, e.readings);
    case Declines(token, user) => AcceptKeepsEnds(s, token, user, e.readings);
    case Cancels(id, user) => if id in s.matches { ClosedEnds(s, id, Cancelled); }
    case Views(id, user) => if id in s.matches { TimeoutEnds(s, id, e.readings); }
    case Plays(id, user, expectedVersion, played) => MoveKeepsEnds(s, id, user, expectedVersion, played, e.readings);
    case Resigns(id, user) => ResignKeepsEnds(s, id, user, e.readings);
    case Draws(id, user) => DrawKeepsEnds(s, id, user, e.readings);
    case Sweeps(id) => if id in s.matches { TimeoutEnds(s, id, e.readings); }
  }

  lemma InviteKeepsEnds(s: Store, id: Id, user: Id, seconds: nat, token: Id, now: int)
    requires AllWellEnded(s)
    ensures AllWellEnded(CreateInvite(s, id, user, seconds, token, now).0)
  {
  }

  lemma {:induction false} RunEnds(events: seq<Timed>)
    ensures AllWellEnded(Run(events))
  {
    hide Step;
    if events != [] {
      RunEnds(events[..|events| - 1]);
      StepEnds(Run(events[..|events| - 1]), events[|events| - 1]);
    }
  }

  /**
   * In every run, who won a finished match is what its record says: the player who did not resign, the player whose
   * turn it was not when time ran out, the player who gave mate; everything else is a draw.
   */
  lemma {:induction false} RightWinner(events: seq<Timed>, id: Id)
    requires id in Run(events).matches && Run(events).matches[id].status == Complete
    ensures WellEnded(Run(events).matches[id])
  {
    hide Run;
    RunEnds(events);
  }

  // What each transaction comes to.

  /** The player to move has used up their clock at this reading. */
  predicate ClockGone(m: Match, now: int) {
    && m.status == Active && m.turnStarted.Some?
    && (var left := if m.position.turn == White then m.whiteMs else m.blackMs;
        now - m.turnStarted.value >= left || left == 0)
  }

  /** A move is made exactly by the player whose turn it is, in time, on the board they saw, when the rules allow it. */
  lemma MoveMeans(s: Store, id: Id, user: Id, expectedVersion: nat, played: Option<Played>, r: Readings)
    requires id in s.matches
    ensures var m := s.matches[id]; var (t, reply) := Move(s, id, user, expectedVersion, played, r);
            && (reply == Ok <==>
                  && m.status == Active && m.version == expectedVersion && m.turnStarted.Some? && !ClockGone(m, r.guard)
                  && Plays(m, user, m.position.turn) && played.Some? && played.value.next.turn != m.position.turn)
            && (reply == TimedOut <==>
                  (Plays(m, user, White) || Plays(m, user, Black)) && m.version == expectedVersion && ClockGone(m, r.guard))
            && (reply != Ok && reply != TimedOut ==> t == s)
  {
    hide FlagFallen, AfterMove;
  }

  /** The move is recorded, its player charged the time since the turn began; the turn passes unless the game is over. */
  lemma MoveWrites(s: Store, id: Id, user: Id, expectedVersion: nat, played: Played, r: Readings)
    requires id in s.matches && Move(s, id, user, expectedVersion, Some(played), r).1 == Ok
    ensures var m := s.matches[id]; var t := Move(s, id, user, expectedVersion, Some(played), r).0;
            && t.byInvite == s.byInvite && id in t.matches && t.matches == s.matches[id := t.matches[id]]
            && m.turnStarted.Some? && var n := t.matches[id];
               var spent := if r.charge < m.turnStarted.value then 0 else r.charge - m.turnStarted.value;
               var clock := if m.position.turn == White then m.whiteMs else m.blackMs;
               var left := if spent < clock then clock - spent else 0;
               && n.position == played.next && n.version == m.version + 1 && n.drawOfferedBy == None
               && n.moves == m.moves + [MoveRow(m.version + 1, user, m.position.turn, played.next)]
               && n.acts == m.acts + [Moved(user, clock - left)]
               && (if m.position.turn == White then n.whiteMs == left && n.blackMs == m.blackMs
                   else n.blackMs == left && n.whiteMs == m.whiteMs)
               && (played.ending == None ==>
                     n.status == Active && n.turnStarted == Some(r.database) && n.result == m.result)
               && (played.ending != None ==>
                     && n.status == Complete && n.turnStarted == None && n.completedAt == Some(r.database)
                     && n.termination == Some(OnBoard(played.ending.value)))
  {
  }

  /** Time is called exactly when the clock of the player to move is gone; an invitation is closed when it has run out. */
  lemma SweepMeans(s: Store, id: Id, r: Readings)
    requires id in s.matches
    ensures var m := s.matches[id]; var (t, called) := ExpireOrTimeout(s, id, r);
            && (called <==> ClockGone(m, r.guard))
            && id in t.matches && t.matches == s.matches[id := t.matches[id]]
            && (called ==>
                  && t.matches[id].status == Complete && t.matches[id].completedAt == Some(r.database)
                  && t.matches[id].version == m.version + 1
                  && t.matches[id].termination == Some(if m.position.insufficient then TimeoutDraw else Timeout))
            && (!called ==>
                  if m.status == Waiting && (exists at :: m.inviteExpires == Some(at) && at <= r.guard)
                  then t.matches[id] == m.(status := Expired, invite := None, inviteExpires := None) else t == s)
  {
  }

  /** Whoever has the token, in time, and is not the creator, starts the match as black; white is to move at once. */
  lemma AcceptMeans(s: Store, token: Id, user: Id, r: Readings)
    requires token in s.byInvite && s.byInvite[token] in s.matches
    ensures var id := s.byInvite[token]; var m := s.matches[id]; var (t, reply) := AcceptInvite(s, token, user, r);
            && (reply == Ok <==>
                  && m.status == Waiting && user != m.createdBy
                  && (forall at :: m.inviteExpires == Some(at) ==> r.guard < at))
            && (reply == Ok ==>
                  && t == Store(s.matches[id := m.(black := Some(user), status := Active, invite := None,
                                                   inviteExpires := None, startedAt := Some(r.database),
                                                   turnStarted := Some(r.database))], s.byInvite - {token}))
  {
  }

  /** Whoever else has the token can turn it down while it waits; only its creator can take it back. */
  lemma DeclineMeans(s: Store, token: Id, user: Id, r: Readings)
    requires token in s.byInvite && s.byInvite[token] in s.matches
    ensures var id := s.byInvite[token]; var m := s.matches[id]; var (t, reply) := DeclineInvite(s, token, user, r);
            var late := exists at :: m.inviteExpires == Some(at) && at <= r.guard;
            && (reply == Ok <==> m.status == Waiting && user != m.createdBy && !late)
            && (reply == InviteExpired <==> m.status == Waiting && user != m.createdBy && late)
            && id in t.matches && t.matches == s.matches[id := t.matches[id]]
            && (reply == Ok ==> t.matches[id] == m.(status := Declined, invite := None, inviteExpires := None))
            && (reply == InviteExpired ==> t.matches[id] == m.(status := Expired, invite := None, inviteExpires := None))
            && (reply != Ok && reply != InviteExpired ==> t == s)
  {
    assert s.matches[s.byInvite[token] := s.matches[s.byInvite[token]]] == s.matches;
  }

  lemma CancelMeans(s: Store, id: Id, user: Id)
    requires id in s.matches
    ensures var m := s.matches[id]; var (t, reply) := CancelInvite(s, id, user);
            && (reply == Ok <==> m.status == Waiting && user == m.createdBy)
            && (reply == Ok ==>
                  && t.matches == s.matches[id := m.(status := Cancelled, invite := None, inviteExpires := None)]
                  && t.byInvite == if m.invite.Some? then s.byInvite - {m.invite.value} else s.byInvite)
            && (reply != Ok ==> t == s)
  {
  }

  /** Only its players see a match, and looking at it first applies what time has done to it. */
  lemma ViewMeans(s: Store, id: Id, user: Id, r: Readings)
    requires id in s.matches
    ensures var m := s.matches[id];
            View(s, id, user, r) == if Plays(m, user, White) || Plays(m, user, Black)
                                    then (ExpireOrTimeout(s, id, r).0, Ok) else (s, NotAPlayer)
  {
    hide ExpireOrTimeout;
  }

  /** A new match waits a day for somebody, with a full clock of five, ten or fifteen minutes on each side. */
  lemma InviteMeans(s: Store, id: Id, user: Id, seconds: nat, token: Id, now: int)
    ensures var (t, reply) := CreateInvite(s, id, user, seconds, token, now);
            && (reply == Ok <==>
                  (seconds == 300 || seconds == 600 || seconds == 900) && id !in s.matches && token !in s.byInvite)
            && (reply != Ok ==> t == s)
            && (reply == Ok ==>
                  && id in t.matches && t.matches == s.matches[id := t.matches[id]] && t.byInvite == s.byInvite[token := id]
                  && var m := t.matches[id];
                     && m.createdBy == user && m.black == None && m.invite == Some(token)
                     && m.inviteExpires == Some(now + 86400000) && m.status == Waiting && m.position.turn == White
                     && m.version == 0 && m.whiteMs == m.blackMs == m.timeControl == seconds * 1000 && m.turnStarted == None
                     && m.moves == [] && m.acts == [])
  {
  }

  /** A player in time resigns, offers, takes back or accepts; nobody else can. */
  lemma ResignMeans(s: Store, id: Id, user: Id, r: Readings)
    requires id in s.matches
    ensures var m := s.matches[id]; var (t, reply) := Resign(s, id, user, r);
            && (reply == Ok <==>
                  (Plays(m, user, White) || Plays(m, user, Black)) && m.status == Active && !ClockGone(m, r.guard))
            && (reply == Ok ==>
                  && id in t.matches && t.matches[id].status == Complete && t.matches[id].completedAt == Some(r.database)
                  && t.matches[id].termination == Some(Resignation)
                  && t.matches[id].result == Some(if Plays(m, user, White) then BlackWins else WhiteWins)
                  && t.matches[id].acts == m.acts + [Resigned(user)])
  {
  }

  lemma DrawMeans(s: Store, id: Id, user: Id, r: Readings)
    requires id in s.matches
    ensures var m := s.matches[id]; var (t, reply) := OfferOrAcceptDraw(s, id, user, r);
            && (reply == Ok <==>
                  (Plays(m, user, White) || Plays(m, user, Black)) && m.status == Active && !ClockGone(m, r.guard))
            && (reply == Ok ==>
                  && id in t.matches && t.matches[id].version == m.version + 1
                  && var n := t.matches[id];
                     if exists other :: m.drawOfferedBy == Some(other) && other != user
                     then n.status == Complete && n.result == Some(Drawn) && n.termination == Some(Agreement)
                     else n.status == Active && n.drawOfferedBy == if m.drawOfferedBy == Some(user) then None else Some(user))
  {
  }
}
