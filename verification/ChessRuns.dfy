/** What holds of chess matches in every run: agreeing fields, accounted clocks, alternating moves, fair draws. */
module ChessRuns {
  import opened Prelude
  import opened ChessMatches

  // The invariant of one match.

  /** Status, invitation, players, turn and outcome always agree. */
  predicate Agrees(m: Match) {
    && (m.status == Waiting <==> m.invite.Some?) && (m.invite.Some? <==> m.inviteExpires.Some?)
    && (m.status == Active || m.status == Complete <==> m.black.Some?)
    && (m.black.Some? <==> m.startedAt.Some?) && (m.black.Some? ==> m.black.value != m.createdBy)
    && (m.status == Active <==> m.turnStarted.Some?)
    && (m.status == Complete <==> m.result.Some?) && (m.result.Some? <==> m.termination.Some?)
    && (m.result.Some? <==> m.completedAt.Some?)
    && (m.drawOfferedBy.Some? ==> m.status == Active && PlayerOf(m, m.drawOfferedBy.value).Some?)
    && (m.black.None? ==> m.acts == [] && m.moves == [])
  }

  function Costs(acts: seq<Act>): nat {
    if acts == [] then 0 else
      var last := acts[|acts| - 1];
      Costs(acts[..|acts| - 1]) + (if last.Moved? || last.Flagged? then last.cost else 0)
  }

  /** Both clocks and everything charged for finished turns add up to what the players were given. */
  predicate Accounted(m: Match) {
    m.whiteMs + m.blackMs + Costs(m.acts) == 2 * m.timeControl
  }

  function ColorAt(i: nat): Color {
    if i % 2 == 0 then White else Black
  }

  /** Every change is one version; moves alternate, each by the player of its colour, in growing versions. */
  predicate Recorded(m: Match) {
    && m.version == |m.acts| && m.position.turn == ColorAt(|m.moves|)
    && (forall i :: 0 <= i < |m.moves| ==>
          && m.moves[i].color == ColorAt(i) && PlayerOf(m, m.moves[i].user) == Some(ColorAt(i))
          && m.moves[i].version <= m.version)
    && (forall i, j :: 0 <= i < j < |m.moves| ==> m.moves[i].version < m.moves[j].version)
    && (m.moves != [] ==> m.position == m.moves[|m.moves| - 1].after)
  }

  /** An offer stands exactly when it was the last thing to happen; an agreed draw answers one by the other player. */
  predicate DrawsFair(m: Match) {
    var n := |m.acts|;
    && m.drawOfferedBy == (if n > 0 && m.acts[n - 1].Offered? then Some(m.acts[n - 1].user) else None)
    && (m.termination == Some(Agreement) ==>
          && n >= 2 && m.acts[n - 1].Agreed? && m.acts[n - 2].Offered? && m.acts[n - 1].user != m.acts[n - 2].user
          && PlayerOf(m, m.acts[n - 1].user).Some? && PlayerOf(m, m.acts[n - 2].user).Some?)
  }

  predicate Fair(m: Match) {
    Agrees(m) && Accounted(m) && Recorded(m) && DrawsFair(m) && m.timeControl > 0
  }

  /** Time is left on both clocks of a match that is not over. */
  predicate Ticking(m: Match) {
    m.status == Waiting || m.status == Active ==> m.whiteMs > 0 && m.blackMs > 0
  }

  /** Whether one step may take the row from `m` to `n`: finished matches stand still, versions and history only grow. */
  predicate Onward(m: Match, n: Match) {
    && n.createdBy == m.createdBy && n.timeControl == m.timeControl && m.version <= n.version
    && m.acts <= n.acts && m.moves <= n.moves
    && (m.status != Waiting && m.status != Active ==> n == m)
    && (m.status == Active ==> n.black == m.black && (n == m || n.version > m.version))
    && (|m.moves| < |n.moves| ==> n.version == m.version + 1 && |n.moves| == |m.moves| + 1)
  }

  predicate OneReading(r: Readings) {
    r.guard == r.charge == r.database
  }

  // Each change of a row.

  lemma {:induction false} CostsAppend(acts: seq<Act>, act: Act)
    ensures Costs(acts + [act]) == Costs(acts) + (if act.Moved? || act.Flagged? then act.cost else 0)
  {
    assert (acts + [act])[..|acts|] == acts;
  }

  lemma ClosedFair(m: Match, status: Status)
    requires Fair(m) && m.status == Waiting && status in {Cancelled, Declined, Expired}
    ensures var n := m.(status := status, invite := None, inviteExpires := None); Fair(n) && Onward(m, n) && Ticking(n)
  {
  }

  lemma AcceptedFair(m: Match, user: Id, database: int)
    requires Fair(m) && m.status == Waiting && m.createdBy != user
    ensures var n := m.(black := Some(user), status := Active, invite := None, inviteExpires := None,
                        startedAt := Some(database), turnStarted := Some(database));
            Fair(n) && Onward(m, n) && (Ticking(m) ==> Ticking(n))
  {
  }

  /** Ending the match outside the board charges nobody and needs no more than that it is under way. */
  lemma FinishedFair(m: Match, result: Result, termination: Termination, database: int, act: Act)
    requires Fair(m) && m.status == Active && termination != Agreement && act.Resigned?
    ensures var n := Finished(m, result, termination, database, act); Fair(n) && Onward(m, n) && Ticking(n)
  {
    hide Recorded;
    CostsAppend(m.acts, act);
    FinishedRecorded(m, result, termination, database, act);
  }

  lemma FinishedRecorded(m: Match, result: Result, termination: Termination, database: int, act: Act)
    requires Recorded(m)
    ensures var n := Finished(m, result, termination, database, act);
            Recorded(n) && m.version < n.version && m.acts <= n.acts && m.moves == n.moves
  {
    assert forall i :: 0 <= i < |m.moves| ==>
             PlayerOf(Finished(m, result, termination, database, act), m.moves[i].user) == PlayerOf(m, m.moves[i].user);
  }

  lemma ClockRecorded(m: Match, c: Color, ms: nat)
    requires Recorded(m)
    ensures Recorded(WithClock(m, c, ms))
  {
    assert forall i :: 0 <= i < |m.moves| ==> PlayerOf(WithClock(m, c, ms), m.moves[i].user) == PlayerOf(m, m.moves[i].user);
  }

  lemma FlagFair(m: Match, r: Readings)
    requires Fair(m) && m.status == Active
    ensures var n := FlagFallen(m, r); Fair(n) && Onward(m, n) && Ticking(n)
  {
    hide Agrees, Accounted, Recorded, DrawsFair;
    var turn := m.position.turn;
    FlagAgrees(m, r);
    FlagAccounted(m, r);
    ClockRecorded(m, turn, 0);
    FinishedRecorded(WithClock(m, turn, 0), Drawn, TimeoutDraw, r.database, Flagged(ClockOf(m, turn)));
    FinishedRecorded(WithClock(m, turn, 0), WinFor(Other(turn)), Timeout, r.database, Flagged(ClockOf(m, turn)));
  }

  lemma FlagAgrees(m: Match, r: Readings)
    requires Agrees(m) && m.status == Active
    ensures Agrees(FlagFallen(m, r)) && DrawsFair(FlagFallen(m, r))
  {
  }

  lemma FlagAccounted(m: Match, r: Readings)
    requires Accounted(m)
    ensures Accounted(FlagFallen(m, r))
  {
    hide Costs;
    CostsAppend(m.acts, Flagged(ClockOf(m, m.position.turn)));
  }

  lemma AgreedFair(m: Match, user: Id, database: int)
    requires Fair(m) && m.status == Active && PlayerOf(m, user).Some?
    requires m.drawOfferedBy.Some? && m.drawOfferedBy.value != user
    ensures var n := Finished(m, Drawn, Agreement, database, Agreed(user)); Fair(n) && Onward(m, n) && Ticking(n)
  {
    hide Recorded;
    CostsAppend(m.acts, Agreed(user));
    FinishedRecorded(m, Drawn, Agreement, database, Agreed(user));
  }

  lemma OfferFair(m: Match, user: Id)
    requires Fair(m) && m.status == Active && PlayerOf(m, user).Some?
    requires m.drawOfferedBy.None? || m.drawOfferedBy.value == user
    ensures var withdraws := m.drawOfferedBy == Some(user);
            var n := m.(drawOfferedBy := if withdraws then None else Some(user), version := m.version + 1,
                        acts := m.acts + [if withdraws then Withdrew(user) else Offered(user)]);
            Fair(n) && Onward(m, n) && (Ticking(m) ==> Ticking(n))
  {
    CostsAppend(m.acts, if m.drawOfferedBy == Some(user) then Withdrew(user) else Offered(user));
  }

  predicate CanMove(m: Match, user: Id, played: Played) {
    && m.status == Active && m.turnStarted.Some? && PlayerOf(m, user) == Some(m.position.turn)
    && played.next.turn == Other(m.position.turn)
  }

  lemma MovedFair(m: Match, user: Id, played: Played, charge: int, database: int)
    requires Fair(m) && CanMove(m, user, played)
    ensures var n := AfterMove(m, user, m.position.turn, played, charge, database); Fair(n) && Onward(m, n)
  {
    hide Agrees, DrawsFair, Recorded, Accounted;
    var n := AfterMove(m, user, m.position.turn, played, charge, database);
    assert n.moves[..|m.moves|] == m.moves;
    MovedAgrees(m, user, played, charge, database);
    MovedRecorded(m, user, played, charge, database);
    MovedAccounted(m, user, played, charge, database);
  }

  /** What a turn costs comes off its player's clock and nowhere else. */
  lemma MovedAccounted(m: Match, user: Id, played: Played, charge: int, database: int)
    requires Accounted(m) && CanMove(m, user, played)
    ensures Accounted(AfterMove(m, user, m.position.turn, played, charge, database))
  {
    hide Costs;
    var base := ClockOf(m, m.position.turn);
    CostsAppend(m.acts, Moved(user, base - Left(base, Elapsed(m.turnStarted.value, charge))));
  }

  lemma MovedRecorded(m: Match, user: Id, played: Played, charge: int, database: int)
    requires Recorded(m) && CanMove(m, user, played)
    ensures Recorded(AfterMove(m, user, m.position.turn, played, charge, database))
  {
    var n := AfterMove(m, user, m.position.turn, played, charge, database);
    assert forall i :: 0 <= i < |m.moves| ==>
             n.moves[i] == m.moves[i] && PlayerOf(n, m.moves[i].user) == PlayerOf(m, m.moves[i].user);
  }

  lemma MovedAgrees(m: Match, user: Id, played: Played, charge: int, database: int)
    requires Agrees(m) && DrawsFair(m) && CanMove(m, user, played)
    ensures var n := AfterMove(m, user, m.position.turn, played, charge, database); Agrees(n) && DrawsFair(n)
  {
  }

  /**
   * Exactly when a move leaves its player time: the reading that charges the turn must still be within the clock.
   * The check made before the move used an earlier reading, so it does not by itself guarantee that.
   */
  lemma MoverHasTimeIff(m: Match, user: Id, played: Played, charge: int, database: int)
    requires Fair(m) && Ticking(m) && CanMove(m, user, played) && played.ending.None?
    ensures var n := AfterMove(m, user, m.position.turn, played, charge, database);
            && (Ticking(n) <==> Elapsed(m.turnStarted.value, charge) < ClockOf(m, m.position.turn))
            && (Ticking(n) ==> ClockOf(n, m.position.turn) == ClockOf(m, m.position.turn) - Elapsed(m.turnStarted.value, charge))
            && ClockOf(n, Other(m.position.turn)) == ClockOf(m, Other(m.position.turn))
  {
  }

  /**
   * A move is accepted because its first reading was within the clock, and charged by a second one that was not: it
   * leaves its player no time, and the match goes on.
   */
  predicate Overcharges(s: Store, e: Timed) {
    && e.event.Plays?
    && var p := e.event;
       && Move(s, p.id, p.user, p.expectedVersion, p.played, e.readings).1 == Ok && p.played.value.ending.None?
       && var m := s.matches[p.id]; Elapsed(m.turnStarted.value, e.readings.charge) >= ClockOf(m, m.position.turn)
  }

  lemma OneReadingIsFair(s: Store, e: Timed)
    requires OneReading(e.readings)
    ensures !Overcharges(s, e)
  {
    hide AfterMove, FlagFallen;
  }

  // Every transaction.

  ghost predicate AllFair(s: Store) {
    && (forall id :: id in s.matches ==> Fair(s.matches[id]))
    && (forall id :: id in s.matches && s.matches[id].invite.Some? ==>
          var t := s.matches[id].invite.value; t in s.byInvite && s.byInvite[t] == id)
    && (forall t :: t in s.byInvite ==> s.byInvite[t] in s.matches && s.matches[s.byInvite[t]].invite == Some(t))
  }

  ghost predicate AllTicking(s: Store) {
    forall id :: id in s.matches ==> Ticking(s.matches[id])
  }

  ghost predicate Later(s: Store, t: Store) {
    forall id :: id in s.matches ==> id in t.matches && Onward(s.matches[id], t.matches[id])
  }

  lemma SameOnward(m: Match)
    ensures Onward(m, m)
  {
  }

  lemma SameLater(s: Store)
    ensures Later(s, s)
  {
    hide Onward;
    forall id | id in s.matches ensures Onward(s.matches[id], s.matches[id]) {
      SameOnward(s.matches[id]);
    }
  }

  lemma WrittenFair(s: Store, id: Id, n: Match)
    requires AllFair(s) && id in s.matches && Fair(n) && n.invite == s.matches[id].invite && Onward(s.matches[id], n)
    ensures AllFair(Written(s, id, n)) && Later(s, Written(s, id, n))
    ensures AllTicking(s) && Ticking(n) ==> AllTicking(Written(s, id, n))
  {
    hide Fair, Onward, Ticking;
    SameLater(s);
  }

  lemma InviteGone(s: Store, id: Id, n: Match)
    requires AllFair(s) && id in s.matches && s.matches[id].invite.Some? && n.invite.None? && Fair(n) && Onward(s.matches[id], n)
    ensures var r := Store(s.matches[id := n], s.byInvite - {s.matches[id].invite.value});
            AllFair(r) && Later(s, r) && (AllTicking(s) && Ticking(n) ==> AllTicking(r))
  {
    hide Fair, Onward, Ticking;
    SameLater(s);
  }

  lemma WaitingHasInvite(m: Match)
    requires Fair(m)
    ensures m.status == Waiting <==> m.invite.Some?
    ensures m.status == Active <==> m.turnStarted.Some?
    ensures m.termination == Some(Agreement) ==> m.status == Complete
  {
  }

  lemma CloseFair(s: Store, id: Id, status: Status)
    requires AllFair(s) && id in s.matches && s.matches[id].status == Waiting && status in {Cancelled, Declined, Expired}
    ensures var r := Closed(s, id, status); AllFair(r) && Later(s, r) && (AllTicking(s) ==> AllTicking(r))
  {
    hide Fair, Onward, Ticking, AllFair;
    FairAt(s, id);
    ClosedFair(s.matches[id], status);
    WaitingHasInvite(s.matches[id]);
    InviteGone(s, id, s.matches[id].(status := status, invite := None, inviteExpires := None));
  }

  lemma FairAt(s: Store, id: Id)
    requires AllFair(s) && id in s.matches
    ensures Fair(s.matches[id])
    ensures s.matches[id].status == Active ==> s.matches[id].turnStarted.Some? && s.matches[id].invite.None?
  {
    WaitingHasInvite(s.matches[id]);
  }

  lemma CreateFair(s: Store, id: Id, user: Id, seconds: nat, token: Id, now: int)
    requires AllFair(s)
    ensures var r := CreateInvite(s, id, user, seconds, token, now).0;
            AllFair(r) && Later(s, r) && (AllTicking(s) ==> AllTicking(r))
  {
    hide Onward;
    SameLater(s);
  }

  lemma AcceptFair(s: Store, token: Id, user: Id, r: Readings)
    requires AllFair(s)
    ensures var t := AcceptInvite(s, token, user, r).0; AllFair(t) && Later(s, t) && (AllTicking(s) ==> AllTicking(t))
  {
    hide Fair, Onward, Ticking, Closed;
    SameLater(s);
    if token in s.byInvite {
      var id := s.byInvite[token];
      var m := s.matches[id];
      if m.status == Waiting {
        CloseFair(s, id, Expired);
        if m.createdBy != user {
          AcceptedFair(m, user, r.database);
          InviteGone(s, id, m.(black := Some(user), status := Active, invite := None, inviteExpires := None,
                               startedAt := Some(r.database), turnStarted := Some(r.database)));
        }
      }
    }
  }

  lemma DeclineFair(s: Store, token: Id, user: Id, r: Readings)
    requires AllFair(s)
    ensures var t := DeclineInvite(s, token, user, r).0; AllFair(t) && Later(s, t) && (AllTicking(s) ==> AllTicking(t))
  {
    hide Fair, Onward, Ticking, Closed;
    SameLater(s);
    if token in s.byInvite && s.matches[s.byInvite[token]].status == Waiting {
      CloseFair(s, s.byInvite[token], Expired);
      CloseFair(s, s.byInvite[token], Declined);
    }
  }

  lemma TimeoutFair(s: Store, id: Id, r: Readings)
    requires AllFair(s) && id in s.matches
    ensures var t := ExpireOrTimeout(s, id, r).0; AllFair(t) && Later(s, t) && (AllTicking(s) ==> AllTicking(t))
  {
    hide Fair, Onward, Ticking, Closed, AllFair, AllTicking, Later, Written;
    SameLater(s);
    var m := s.matches[id];
    FairAt(s, id);
    if m.status == Waiting {
      CloseFair(s, id, Expired);
    } else if OutOfTime(m, r.guard) {
      FlagFair(m, r);
      WrittenFair(s, id, FlagFallen(m, r));
    }
  }

  lemma MoveFair(s: Store, id: Id, user: Id, expectedVersion: nat, played: Option<Played>, r: Readings)
    requires AllFair(s)
    ensures var t := Move(s, id, user, expectedVersion, played, r).0;
            && AllFair(t) && Later(s, t)
            && (AllTicking(s) ==> (AllTicking(t) <==> !Overcharges(s, Timed(r, Plays(id, user, expectedVersion, played)))))
  {
    hide Fair, Onward, Ticking, AllFair, AllTicking, Later, Written, AfterMove;
    SameLater(s);
    if id in s.matches {
      var m := s.matches[id];
      FairAt(s, id);
      if m.status == Active && PlayerOf(m, user).Some? && m.version == expectedVersion {
        if OutOfTime(m, r.guard) {
          FlagFair(m, r);
          WrittenFair(s, id, FlagFallen(m, r));
        } else if PlayerOf(m, user).value == m.position.turn && played.Some? && played.value.next.turn == Other(m.position.turn) {
          var n := AfterMove(m, user, m.position.turn, played.value, r.charge, r.database);
          MovedFair(m, user, played.value, r.charge, r.database);
          AllTickingAt(s, id);
          if Ticking(m) {
            MovedTicksIff(m, user, played.value, r);
          }
          MoveKeepsInvite(m, user, played.value, r);
          WrittenFair(s, id, n);
          WrittenRow(s, id, n);
          AllTickingAt(Written(s, id, n), id);
        }
      }
    }
  }

  lemma AllTickingAt(s: Store, id: Id)
    requires id in s.matches
    ensures AllTicking(s) ==> Ticking(s.matches[id])
  {
  }

  lemma WrittenRow(s: Store, id: Id, n: Match)
    ensures id in Written(s, id, n).matches && Written(s, id, n).matches[id] == n
  {
  }

  lemma MoveKeepsInvite(m: Match, user: Id, played: Played, r: Readings)
    requires CanMove(m, user, played)
    ensures AfterMove(m, user, m.position.turn, played, r.charge, r.database).invite == m.invite
  {
  }

  lemma MovedTicksIff(m: Match, user: Id, played: Played, r: Readings)
    requires Fair(m) && Ticking(m) && CanMove(m, user, played)
    ensures Ticking(AfterMove(m, user, m.position.turn, played, r.charge, r.database)) <==>
            played.ending.Some? || Elapsed(m.turnStarted.value, r.charge) < ClockOf(m, m.position.turn)
  {
    if played.ending.None? {
      MoverHasTimeIff(m, user, played, r.charge, r.database);
    }
  }

  lemma ResignFair(s: Store, id: Id, user: Id, r: Readings)
    requires AllFair(s)
    ensures var t := Resign(s, id, user, r).0; AllFair(t) && Later(s, t) && (AllTicking(s) ==> AllTicking(t))
  {
    hide Fair, Onward, Ticking, AllFair, AllTicking, Later, Written;
    SameLater(s);
    if id in s.matches {
      var m := s.matches[id];
      FairAt(s, id);
      if m.status == Active && PlayerOf(m, user).Some? {
        if OutOfTime(m, r.guard) {
          FlagFair(m, r);
          WrittenFair(s, id, FlagFallen(m, r));
        } else {
          var result := WinFor(Other(PlayerOf(m, user).value));
          FinishedFair(m, result, Resignation, r.database, Resigned(user));
          WrittenFair(s, id, Finished(m, result, Resignation, r.database, Resigned(user)));
        }
      }
    }
  }

  lemma DrawFair(s: Store, id: Id, user: Id, r: Readings)
    requires AllFair(s)
    ensures var t := OfferOrAcceptDraw(s, id, user, r).0; AllFair(t) && Later(s, t) && (AllTicking(s) ==> AllTicking(t))
  {
    hide Fair, Onward, Ticking, AllFair, AllTicking, Later, Written;
    SameLater(s);
    if id in s.matches {
      var m := s.matches[id];
      FairAt(s, id);
      AllTickingAt(s, id);
      if m.status == Active && PlayerOf(m, user).Some? {
        if OutOfTime(m, r.guard) {
          FlagFair(m, r);
          WrittenFair(s, id, FlagFallen(m, r));
        } else if m.drawOfferedBy.Some? && m.drawOfferedBy.value != user {
          AgreedFair(m, user, r.database);
          WrittenFair(s, id, Finished(m, Drawn, Agreement, r.database, Agreed(user)));
        } else {
          var withdraws := m.drawOfferedBy == Some(user);
          OfferFair(m, user);
          WrittenFair(s, id, m.(drawOfferedBy := if withdraws then None else Some(user), version := m.version + 1,
                                acts := m.acts + [if withdraws then Withdrew(user) else Offered(user)]));
        }
      }
    }
  }

  lemma StepFair(s: Store, e: Timed)
    requires AllFair(s)
    ensures AllFair(Step(s, e)) && Later(s, Step(s, e))
    ensures AllTicking(s) ==> (AllTicking(Step(s, e)) <==> !Overcharges(s, e))
  {
    hide AllFair, Later, AllTicking, CreateInvite, AcceptInvite, DeclineInvite, Closed, ExpireOrTimeout, Move,
      Resign, OfferOrAcceptDraw;
    SameLater(s);
    match e.event
    case Invites(id, user, seconds, token) => CreateFair(s, id, user, seconds, token, e.readings.guard);
    case Accepts(token, user) => AcceptFair(s, token, user, e.readings);
    case Declines(token, user) => DeclineFair(s, token, user, e.readings);
    case Cancels(id, user) => if id in s.matches && s.matches[id].status == Waiting { CloseFair(s, id, Cancelled); }
    case Views(id, user) => if id in s.matches { TimeoutFair(s, id, e.readings); }
    case Plays(id, user, expectedVersion, played) => MoveFair(s, id, user, expectedVersion, played, e.readings);
    case Resigns(id, user) => ResignFair(s, id, user, e.readings);
    case Draws(id, user) => DrawFair(s, id, user, e.readings);
    case Sweeps(id) => if id in s.matches { TimeoutFair(s, id, e.readings); }
  }

  // Whole runs.

  lemma {:induction false} RunFair(events: seq<Timed>)
    ensures AllFair(Run(events))
  {
    hide Step;
    if events != [] {
      RunFair(events[..|events| - 1]);
      StepFair(Run(events[..|events| - 1]), events[|events| - 1]);
    }
  }

  /** Status, invitation, players, turn, outcome and standing offer of every match agree. */
  lemma {:induction false} FieldsAgree(events: seq<Timed>, id: Id)
    requires id in Run(events).matches
    ensures Agrees(Run(events).matches[id])
  {
    hide Run, Agrees;
    RunFair(events);
  }

  /** Whatever readings the transactions take, no time is lost or made: clocks plus finished turns are what was given. */
  lemma {:induction false} TimeIsConserved(events: seq<Timed>, id: Id)
    requires id in Run(events).matches
    ensures var m := Run(events).matches[id]; m.whiteMs + m.blackMs + Costs(m.acts) == 2 * m.timeControl
  {
    hide Run, Costs;
    RunFair(events);
  }

  ghost predicate NeverOvercharged(events: seq<Timed>) {
    forall k: nat :: k < |events| ==> !Overcharges(Run(events[..k]), events[k])
  }

  lemma {:induction false} RunTicks(events: seq<Timed>)
    requires NeverOvercharged(events)
    ensures AllTicking(Run(events))
  {
    hide Step, Overcharges, Ticking;
    if events != [] {
      var init := events[..|events| - 1];
      assert forall k :: 0 <= k <= |init| ==> init[..k] == events[..k];
      RunTicks(init);
      RunFair(init);
      StepFair(Run(init), events[|events| - 1]);
      assert !Overcharges(Run(events[..|init|]), events[|init|]);
    }
  }

  /**
   * Both players of every match under way have time left throughout a run exactly when no accepted move of the run is
   * charged all its player had.
   */
  lemma {:induction false} BothHaveTimeIff(events: seq<Timed>)
    ensures NeverOvercharged(events) <==> forall j: nat :: j <= |events| ==> AllTicking(Run(events[..j]))
  {
    hide Run, Step, Overcharges, AllTicking;
    if NeverOvercharged(events) {
      forall j: nat | j <= |events| ensures AllTicking(Run(events[..j])) {
        assert forall k :: 0 <= k <= j ==> events[..j][..k] == events[..k];
        RunTicks(events[..j]);
      }
    } else {
      var k: nat :| k < |events| && Overcharges(Run(events[..k]), events[k]);
      RunFair(events[..k]);
      StepFair(Run(events[..k]), events[k]);
      AfterEvent(events, k);
    }
  }

  lemma AfterEvent(events: seq<Timed>, k: nat)
    requires k < |events|
    ensures Run(events[..k + 1]) == Step(Run(events[..k]), events[k])
  {
    assert events[..k + 1][..k] == events[..k];
  }

  /** With one reading per transaction they do. */
  lemma {:induction false} BothHaveTime(events: seq<Timed>, id: Id)
    requires forall i :: 0 <= i < |events| ==> OneReading(events[i].readings)
    requires id in Run(events).matches && Run(events).matches[id].status == Active
    ensures Run(events).matches[id].whiteMs > 0 && Run(events).matches[id].blackMs > 0
  {
    hide Run, Overcharges;
    forall k: nat | k < |events| ensures !Overcharges(Run(events[..k]), events[k]) {
      OneReadingIsFair(Run(events[..k]), events[k]);
    }
    RunTicks(events);
  }

  const SLOW := [Timed(Readings(0, 0, 0), Invites(1, 1, 300, 9)), Timed(Readings(0, 0, 0), Accepts(9, 2)),
                 Timed(Readings(299999, 300000, 300000), Plays(1, 1, 0, Some(Played(Position(Black, 1, false), None))))]

  /** With several they need not: a move made in the last millisecond and charged a millisecond later leaves nothing. */
  lemma ReadingsMatter()
    ensures 1 in Run(SLOW).matches && Run(SLOW).matches[1].status == Active && Run(SLOW).matches[1].whiteMs == 0
  {
    AfterEvent(SLOW, 0);
    AfterEvent(SLOW, 1);
    AfterEvent(SLOW, 2);
    assert SLOW[..0] == [] && SLOW[..3] == SLOW;
    assert Run(SLOW[..1]).matches.Keys == {1} && Run(SLOW[..1]).byInvite == map[9 := 1];
  }

  /** The clock of the player to move shows zero exactly when the next transaction will call time. */
  lemma ShownZeroIff(m: Match, now: int)
    requires Fair(m) && m.status == Active
    ensures ClockSnapshot(m, now).Some?
    ensures var (white, black) := ClockSnapshot(m, now).value;
            (if m.position.turn == White then white else black) == 0 <==> OutOfTime(m, now)
  {
  }

  lemma {:induction false} MovesAlternate(events: seq<Timed>, id: Id, i: nat)
    requires id in Run(events).matches && i < |Run(events).matches[id].moves|
    ensures var m := Run(events).matches[id];
            && m.moves[i].color == ColorAt(i) && PlayerOf(m, m.moves[i].user) == Some(ColorAt(i))
            && (i > 0 ==> m.moves[i - 1].version < m.moves[i].version && m.moves[i - 1].user != m.moves[i].user)
            && m.moves[i].version <= m.version
  {
    hide Run;
    RunFair(events);
  }

  /** A draw was agreed only if one player offered it and the other accepted with nothing in between, not even a move. */
  lemma {:induction false} DrawWasOffered(events: seq<Timed>, id: Id)
    requires id in Run(events).matches && Run(events).matches[id].termination == Some(Agreement)
    ensures var m := Run(events).matches[id]; var n := |m.acts|;
            && n >= 2 && m.acts[n - 2].Offered? && m.acts[n - 1].Agreed?
            && m.black.Some? && {m.acts[n - 2].user, m.acts[n - 1].user} == {m.createdBy, m.black.value}
  {
    hide Run;
    RunFair(events);
  }

  /** Over any stretch of a run versions and records only grow, and a match that is over stays exactly as it ended. */
  predicate Since(m: Match, n: Match) {
    && n.createdBy == m.createdBy && n.timeControl == m.timeControl && m.version <= n.version
    && m.acts <= n.acts && m.moves <= n.moves
    && (m.status != Waiting && m.status != Active ==> n == m)
  }

  lemma {:induction false} VersionsGrow(events: seq<Timed>, i: nat, id: Id)
    requires i <= |events| && id in Run(events[..i]).matches
    ensures id in Run(events).matches && Since(Run(events[..i]).matches[id], Run(events).matches[id])
    decreases |events|
  {
    hide Step;
    if i == |events| {
      assert events[..i] == events;
    } else {
      var init := events[..|events| - 1];
      assert init[..i] == events[..i];
      VersionsGrow(init, i, id);
      RunFair(init);
      StepFair(Run(init), events[|events| - 1]);
      assert Onward(Run(init).matches[id], Run(events).matches[id]);
    }
  }

  /** Event `i` makes a move on the board as it was at the given version. */
  ghost predicate MovesAt(events: seq<Timed>, i: nat, id: Id, version: nat)
    requires i < |events|
  {
    && events[i].event.Plays? && events[i].event.id == id && events[i].event.expectedVersion == version
    && var e := events[i].event;
       Move(Run(events[..i]), id, e.user, version, e.played, events[i].readings).1 == Ok
  }

  /** Of all the moves sent for one version of the board, at most one is made. */
  lemma OneMovePerVersion(events: seq<Timed>, i: nat, j: nat, id: Id, version: nat)
    requires i < j < |events| && MovesAt(events, i, id, version)
    ensures !MovesAt(events, j, id, version)
  {
    hide Since;
    assert events[..i + 1][..i] == events[..i];
    assert events[..j][..i + 1] == events[..i + 1];
    assert Run(events[..i + 1]).matches[id].version == version + 1;
    VersionsGrow(events[..j], i + 1, id);
    SinceVersion(Run(events[..i + 1]).matches[id], Run(events[..j]).matches[id]);
  }

  lemma SinceVersion(m: Match, n: Match)
    requires Since(m, n)
    ensures m.version <= n.version
  {
  }
}
