/** The chess repository as it is written: rows updated in place under a version check, proved against ChessMatches. */
module ChessRepository {
  import opened Prelude
  import opened ChessMatches

  class Repository {
    var matches: map<Id, Match>
    var byInvite: map<Id, Id>

    ghost function Snapshot(): Store
      reads this
    {
      Store(matches, byInvite)
    }

    constructor ()
      ensures Snapshot() == EmptyStore
    {
      matches, byInvite := map[], map[];
    }

    method CreateInvite(id: Id, user: Id, seconds: nat, token: Id, now: int) returns (reply: Reply)
      modifies this
      ensures (Snapshot(), reply) == ChessMatches.CreateInvite(old(Snapshot()), id, user, seconds, token, now)
    {
      if seconds !in {300, 600, 900} || id in matches || token in byInvite {
        return ConstraintViolated;
      }
      matches := matches[id := Match(user, None, Some(token), Some(now + INVITE_TTL), Waiting, START, 0, seconds * 1000,
                                     seconds * 1000, seconds * 1000, None, None, None, None, None, None, [], [])];
      byInvite := byInvite[token := id];
      reply := Ok;
    }

    method Close(id: Id, status: Status)
      requires id in matches
      modifies this
      ensures Snapshot() == Closed(old(Snapshot()), id, status)
    {
      var row := matches[id];
      matches := matches[id := row.(status := status, invite := None, inviteExpires := None)];
      if row.invite.Some? {
        byInvite := byInvite - {row.invite.value};
      }
    }

    method AcceptInvite(token: Id, user: Id, r: Readings) returns (reply: Reply)
      modifies this
      ensures (Snapshot(), reply) == ChessMatches.AcceptInvite(old(Snapshot()), token, user, r)
    {
      if token !in byInvite || byInvite[token] !in matches {
        return InviteNotFound;
      }
      var id := byInvite[token];
      var row := matches[id];
      if row.status != Waiting {
        return InviteClosed;
      }
      if HasExpired(row, r.guard) {
        Close(id, Expired);
        return InviteExpired;
      }
      if row.createdBy == user {
        return SelfInvite;
      }
      matches := matches[id := row.(black := Some(user), status := Active, invite := None, inviteExpires := None,
                                    startedAt := Some(r.database), turnStarted := Some(r.database))];
      byInvite := byInvite - {token};
      reply := Ok;
    }

    method DeclineInvite(token: Id, user: Id, r: Readings) returns (reply: Reply)
      modifies this
      ensures (Snapshot(), reply) == ChessMatches.DeclineInvite(old(Snapshot()), token, user, r)
    {
      if token !in byInvite || byInvite[token] !in matches {
        return InviteNotFound;
      }
      var id := byInvite[token];
      var row := matches[id];
      if row.status != Waiting {
        return InviteClosed;
      }
      if row.createdBy == user {
        return SelfInvite;
      }
      if HasExpired(row, r.guard) {
        Close(id, Expired);
        return InviteExpired;
      }
      Close(id, Declined);
      reply := Ok;
    }

    method CancelInvite(id: Id, user: Id) returns (reply: Reply)
      modifies this
      ensures (Snapshot(), reply) == ChessMatches.CancelInvite(old(Snapshot()), id, user)
    {
      if id !in matches {
        return MatchNotFound;
      }
      if matches[id].createdBy != user {
        return NotOwner;
      }
      if matches[id].status != Waiting {
        return InviteClosed;
      }
      Close(id, Cancelled);
      reply := Ok;
    }

    method Finish(id: Id, result: Result, termination: Termination, database: int, act: Act)
      requires id in matches
      modifies `matches
      ensures Snapshot() == Written(old(Snapshot()), id, Finished(old(matches)[id], result, termination, database, act))
    {
      var row := matches[id];
      matches := matches[id := row.(status := Complete, result := Some(result), termination := Some(termination),
                                    version := row.version + 1, completedAt := Some(database), turnStarted := None,
                                    drawOfferedBy := None, acts := row.acts + [act])];
    }

    /** True only when it settled a timed-out match. */
    method ExpireOrTimeout(id: Id, r: Readings) returns (settled: bool)
      requires id in matches
      modifies this
      ensures (Snapshot(), settled) == ChessMatches.ExpireOrTimeout(old(Snapshot()), id, r)
    {
      hide Closed;
      var row := matches[id];
      if row.status == Waiting && HasExpired(row, r.guard) {
        Close(id, Expired);
        return false;
      }
      if row.status != Active || row.turnStarted.None? {
        return false;
      }
      var turn := row.position.turn;
      var remaining := if turn == White then row.whiteMs else row.blackMs;
      var elapsed := if r.guard < row.turnStarted.value then 0 else r.guard - row.turnStarted.value;
      if elapsed < remaining {
        return false;
      }
      var result := if row.position.insufficient then Drawn else if turn == White then BlackWins else WhiteWins;
      var termination := if row.position.insufficient then TimeoutDraw else Timeout;
      matches := matches[id := if turn == White then row.(whiteMs := 0) else row.(blackMs := 0)];
      Finish(id, result, termination, r.database, Flagged(remaining));
      assert matches == old(matches)[id := matches[id]];
      settled := true;
    }

    method View(id: Id, user: Id, r: Readings) returns (reply: Reply)
      modifies this
      ensures (Snapshot(), reply) == ChessMatches.View(old(Snapshot()), id, user, r)
    {
      if id !in matches {
        return MatchNotFound;
      }
      if PlayerOf(matches[id], user).None? {
        return NotAPlayer;
      }
      var _ := ExpireOrTimeout(id, r);
      reply := Ok;
    }

    method Move(id: Id, user: Id, expectedVersion: nat, played: Option<Played>, r: Readings) returns (reply: Reply)
      modifies this
      ensures (Snapshot(), reply) == ChessMatches.Move(old(Snapshot()), id, user, expectedVersion, played, r)
    {
      hide Closed;
      if id !in matches {
        return MatchNotFound;
      }
      var row := matches[id];
      var color := PlayerOf(row, user);
      if color.None? {
        return NotAPlayer;
      }
      if row.status != Active {
        return NotActive;
      }
      if row.version != expectedVersion {
        return StalePosition;
      }
      if row.turnStarted.None? {
        return StateInvalid;
      }
      var settled := ExpireOrTimeout(id, r);
      if settled {
        return TimedOut;
      }
      if color.value != row.position.turn {
        return OutOfTurn;
      }
      if played.None? || played.value.next.turn != Other(color.value) {
        return IllegalMove;
      }
      var nextVersion := row.version + 1;
      var spent := if r.charge < row.turnStarted.value then 0 else r.charge - row.turnStarted.value;
      var base := if color.value == White then row.whiteMs else row.blackMs;
      var remaining := if spent < base then base - spent else 0;
      var moved := if color.value == White then row.(whiteMs := remaining) else row.(blackMs := remaining);
      moved := moved.(position := played.value.next, version := nextVersion, drawOfferedBy := None,
                      moves := row.moves + [MoveRow(nextVersion, user, color.value, played.value.next)],
                      acts := row.acts + [Moved(user, base - remaining)]);
      if played.value.ending.None? {
        moved := moved.(turnStarted := Some(r.database));
      } else {
        var end := played.value.ending.value;
        var result := if end != Checkmate then Drawn else if color.value == White then WhiteWins else BlackWins;
        moved := moved.(status := Complete, result := Some(result), termination := Some(OnBoard(end)), turnStarted := None,
                        completedAt := Some(r.database));
      }
      matches := matches[id := moved];
      reply := Ok;
    }

    method Resign(id: Id, user: Id, r: Readings) returns (reply: Reply)
      modifies this
      ensures (Snapshot(), reply) == ChessMatches.Resign(old(Snapshot()), id, user, r)
    {
      hide Closed;
      if id !in matches {
        return MatchNotFound;
      }
      var color := PlayerOf(matches[id], user);
      if color.None? {
        return NotAPlayer;
      }
      if matches[id].status != Active {
        return NotActive;
      }
      var settled := ExpireOrTimeout(id, r);
      if settled {
        return TimedOut;
      }
      Finish(id, if color.value == White then BlackWins else WhiteWins, Resignation, r.database, Resigned(user));
      reply := Ok;
    }

    method OfferOrAcceptDraw(id: Id, user: Id, r: Readings) returns (reply: Reply)
      modifies this
      ensures (Snapshot(), reply) == ChessMatches.OfferOrAcceptDraw(old(Snapshot()), id, user, r)
    {
      hide Closed;
      if id !in matches {
        return MatchNotFound;
      }
      if PlayerOf(matches[id], user).None? {
        return NotAPlayer;
      }
      if matches[id].status != Active {
        return NotActive;
      }
      var settled := ExpireOrTimeout(id, r);
      if settled {
        return TimedOut;
      }
      var row := matches[id];
      if row.drawOfferedBy.Some? && row.drawOfferedBy.value != user {
        Finish(id, Drawn, Agreement, r.database, Agreed(user));
      } else {
        var withdraws := row.drawOfferedBy == Some(user);
        matches := matches[id := row.(drawOfferedBy := if withdraws then None else Some(user), version := row.version + 1,
                                      acts := row.acts + [if withdraws then Withdrew(user) else Offered(user)])];
      }
      reply := Ok;
    }

    /** Whatever arrives, in whatever order, the repository is in the state the run gives. */
    method Perform(event: Timed, ghost events: seq<Timed>)
      requires Snapshot() == Run(events)
      modifies this
      ensures Snapshot() == Run(events + [event])
    {
      hide ChessMatches.CreateInvite, ChessMatches.AcceptInvite, ChessMatches.DeclineInvite, ChessMatches.CancelInvite,
        ChessMatches.View, ChessMatches.Move, ChessMatches.Resign, ChessMatches.OfferOrAcceptDraw,
        ChessMatches.ExpireOrTimeout;
      assert (events + [event])[..|events|] == events;
      var r := event.readings;
      match event.event
      case Invites(id, user, seconds, token) => var _ := CreateInvite(id, user, seconds, token, r.guard);
      case Accepts(token, user) => var _ := AcceptInvite(token, user, r);
      case Declines(token, user) => var _ := DeclineInvite(token, user, r);
      case Cancels(id, user) => var _ := CancelInvite(id, user);
      case Views(id, user) => var _ := View(id, user, r);
      case Plays(id, user, expectedVersion, played) => var _ := Move(id, user, expectedVersion, played, r);
      case Resigns(id, user) => var _ := Resign(id, user, r);
      case Draws(id, user) => var _ := OfferOrAcceptDraw(id, user, r);
      case Sweeps(id) => if id in matches { var _ := ExpireOrTimeout(id, r); }
    }
  }
}
