/**
 * What every run of the arcade keeps about play: the recorded eliminations and the declared winner are those
 * anyone gets by replaying the published moves, every tick is resolved once, and every round finishes once.
 */
module ArcadeReplay {
  import opened Prelude
  import opened LastMan
  import opened ArcadeTables

  // Replaying published moves.

  /** Who is still in after `k` ticks: the tick rule folded over the moves, from everyone who entered. */
  ghost function AliveAfter(entrants: seq<UserId>, rows: seq<MoveRow>, k: nat): seq<UserId> {
    if k == 0 then entrants else Resolve(AliveAfter(entrants, rows, k - 1), MovesAt(rows, k)).survivors
  }

  /** The tick among the first `k` at which the replay drops a user, if any. */
  ghost function DroppedAt(entrants: seq<UserId>, rows: seq<MoveRow>, k: nat, user: UserId): Option<nat> {
    if k == 0 then None
    else if user in AliveAfter(entrants, rows, k - 1) && user !in AliveAfter(entrants, rows, k) then Some(k)
    else DroppedAt(entrants, rows, k - 1, user)
  }

  ghost predicate OncePerTick(rows: seq<MoveRow>) {
    forall i, j :: 0 <= i < j < |rows| ==> rows[i].tick != rows[j].tick || rows[i].user != rows[j].user
  }

  lemma {:induction false} MovesAtRows(rows: seq<MoveRow>, k: nat)
    ensures forall m :: m in MovesAt(rows, k) <==> MoveRow(k, m.user, m.choice) in rows
    ensures OncePerTick(rows) ==> OneMoveEach(MovesAt(rows, k))
  {
    if rows != [] {
      var init, last := rows[..|rows| - 1], rows[|rows| - 1];
      assert rows == init + [last];
      MovesAtRows(init, k);
      if OncePerTick(rows) && last.tick == k {
        forall m | m in MovesAt(init, k) ensures m.user != last.user {
          var i :| 0 <= i < |init| && init[i] == MoveRow(k, m.user, m.choice);
          assert rows[i] == init[i];
        }
      }
    }
  }

  lemma {:induction false} AliveShrinks(entrants: seq<UserId>, rows: seq<MoveRow>, k: nat)
    ensures Users(AliveAfter(entrants, rows, k)) <= Users(entrants)
  {
    hide Resolve, SurvivorSet, MovesAt;
    if k > 0 {
      AliveShrinks(entrants, rows, k - 1);
      ResolveMeetsRule(AliveAfter(entrants, rows, k - 1), MovesAt(rows, k));
    }
  }

  /** The replay does not depend on how the entrants and the moves are listed. */
  lemma {:induction false} ListingIrrelevant(a: seq<UserId>, b: seq<UserId>, rows: seq<MoveRow>,
                                             others: seq<MoveRow>, k: nat)
    requires Users(a) == Users(b) && OncePerTick(rows) && OncePerTick(others)
    requires forall row :: row in rows <==> row in others
    ensures Users(AliveAfter(a, rows, k)) == Users(AliveAfter(b, others, k))
  {
    hide Resolve, SurvivorSet, MovesAt, OncePerTick, OneMoveEach;
    if k > 0 {
      ListingIrrelevant(a, b, rows, others, k - 1);
      var x, y := AliveAfter(a, rows, k - 1), AliveAfter(b, others, k - 1);
      MovesAtRows(rows, k);
      MovesAtRows(others, k);
      ResolveMeetsRule(x, MovesAt(rows, k));
      ResolveMeetsRule(y, MovesAt(others, k));
      OrderIrrelevant(Users(x), MovesAt(rows, k), MovesAt(others, k));
    }
  }

  lemma {:induction false} DropsAgree(a: seq<UserId>, b: seq<UserId>, rows: seq<MoveRow>, others: seq<MoveRow>,
                                      k: nat, user: UserId)
    requires Users(a) == Users(b) && OncePerTick(rows) && OncePerTick(others)
    requires forall row :: row in rows <==> row in others
    ensures DroppedAt(a, rows, k, user) == DroppedAt(b, others, k, user)
  {
    hide AliveAfter, Users, OncePerTick;
    if k > 0 {
      DropsAgree(a, b, rows, others, k - 1, user);
      ListingIrrelevant(a, b, rows, others, k);
      ListingIrrelevant(a, b, rows, others, k - 1);
      InUsers(AliveAfter(a, rows, k), AliveAfter(b, others, k), user);
      InUsers(AliveAfter(a, rows, k - 1), AliveAfter(b, others, k - 1), user);
    }
  }

  lemma InUsers(a: seq<UserId>, b: seq<UserId>, user: UserId)
    requires Users(a) == Users(b)
    ensures user in a <==> user in b
  {
    assert user in a <==> user in Users(a);
    assert user in b <==> user in Users(b);
  }

  // A move committed for a tick not yet resolved leaves the ticks already resolved as they were.

  lemma {:induction false} LaterMove(rows: seq<MoveRow>, row: MoveRow, k: nat)
    requires row.tick != k
    ensures MovesAt(rows + [row], k) == MovesAt(rows, k)
  {
    assert (rows + [row])[..|rows|] == rows;
  }

  lemma {:induction false} Frozen(entrants: seq<UserId>, rows: seq<MoveRow>, row: MoveRow, k: nat)
    requires row.tick > k
    ensures AliveAfter(entrants, rows + [row], k) == AliveAfter(entrants, rows, k)
    ensures forall user :: DroppedAt(entrants, rows + [row], k, user) == DroppedAt(entrants, rows, k, user)
  {
    hide Resolve, MovesAt;
    if k > 0 {
      Frozen(entrants, rows, row, k - 1);
      LaterMove(rows, row, k);
    }
  }

  // What the tables say about one round.

  /** How many ticks have been resolved. */
  function Resolved(round: Round): nat
    requires round.status == Running ==> round.currentTick >= 1
  {
    match round.status
    case Open => 0
    case Running => round.currentTick - 1
    case Settled => round.currentTick
    case Aborted => round.currentTick
  }

  /** The status the replay gives an entrant, in a round of this status. */
  function StatusOf(round: Round, standing: bool): EntryStatus {
    match round.status
    case Open => Alive
    case Running => if standing then Alive else Eliminated
    case Settled => if standing then Won else Eliminated
    case Aborted => if round.currentTick == 0 then Refunded else Eliminated
  }

  ghost predicate Played(round: Round, entries: seq<Entry>, rows: seq<MoveRow>) {
    var entrants := Players(entries);
    && Distinct(entrants) && OncePerTick(rows)
    && (forall row :: row in rows ==> 1 <= row.tick <= round.currentTick)
    && (round.status == Running || round.status == Settled ==> round.currentTick >= 1)
    && (round.status == Open ==> round.currentTick == 0)
    && (forall i :: 0 <= i < |entries| ==>
          && entries[i].status == StatusOf(round, entries[i].user in AliveAfter(entrants, rows, Resolved(round)))
          && entries[i].eliminatedTick == DroppedAt(entrants, rows, Resolved(round), entries[i].user))
    && (round.currentTick >= 1 ==> |entrants| >= round.minPlayers)
    && (forall k :: 1 <= k < round.currentTick ==> |Users(AliveAfter(entrants, rows, k))| >= 2)
    && (round.winner.Some? <==> round.status == Settled)
    && (round.status == Settled ==> Users(AliveAfter(entrants, rows, round.currentTick)) == {round.winner.value})
    && (round.status == Aborted && round.currentTick >= 1 ==> Users(AliveAfter(entrants, rows, round.currentTick)) == {})
  }

  ghost predicate Consistent(t: Tables) {
    && Complete(t)
    && forall id :: id in t.rounds ==> Played(t.rounds[id], t.entries[id], t.moves[id])
  }

  lemma {:induction false} AliveUsersOf(entries: seq<Entry>)
    ensures forall u :: u in AliveUsers(entries) <==>
              exists i :: 0 <= i < |entries| && entries[i].user == u && entries[i].status == Alive
  {
    if entries != [] {
      assert entries == [entries[0]] + entries[1..];
      AliveUsersOf(entries[1..]);
      forall u
        ensures u in AliveUsers(entries) <==>
                exists i :: 0 <= i < |entries| && entries[i].user == u && entries[i].status == Alive
      {
        if u in AliveUsers(entries[1..]) {
          var i :| 0 <= i < |entries[1..]| && entries[1..][i].user == u && entries[1..][i].status == Alive;
          assert entries[i + 1] == entries[1..][i];
        }
        if i :| 0 <= i < |entries| && entries[i].user == u && entries[i].status == Alive {
          if i > 0 {
            assert entries[1..][i - 1] == entries[i];
          }
        }
      }
    }
  }

  /** The rows marked alive are exactly the players the replay still has in. */
  lemma {:induction false} AliveRowsAreReplayed(round: Round, entries: seq<Entry>, rows: seq<MoveRow>)
    requires Played(round, entries, rows) && round.status == Running
    ensures Users(AliveUsers(entries)) == Users(AliveAfter(Players(entries), rows, round.currentTick - 1))
  {
    hide Played, AliveAfter, AliveUsers;
    AliveByTable(round, entries, rows);
    var entrants := Players(entries);
    var standing := AliveAfter(entrants, rows, round.currentTick - 1);
    AliveUsersOf(entries);
    AliveShrinks(entrants, rows, round.currentTick - 1);
    forall u ensures u in Users(AliveUsers(entries)) <==> u in Users(standing) {
      if u in Users(standing) {
        assert u in Users(entrants);
        var i :| 0 <= i < |entrants| && entrants[i] == u;
        assert entries[i].user == u;
      }
    }
  }

  lemma {:induction false} AliveByTable(round: Round, entries: seq<Entry>, rows: seq<MoveRow>)
    requires Played(round, entries, rows) && round.status == Running
    ensures round.currentTick >= 1
    ensures forall i :: 0 <= i < |entries| ==>
              (entries[i].status == Alive <==> entries[i].user in AliveAfter(Players(entries), rows, round.currentTick - 1))
  {
    hide AliveAfter, DroppedAt;
  }

  /** Resolving the current tick on the rows does to them what one more tick of replay says. */
  lemma {:induction false} TickReplays(round: Round, entries: seq<Entry>, rows: seq<MoveRow>)
    requires Played(round, entries, rows) && round.status == Running
    ensures var outcome := Resolve(AliveUsers(entries), MovesAt(rows, round.currentTick));
            var standing := AliveAfter(Players(entries), rows, round.currentTick);
            && Users(outcome.survivors) == Users(standing) && Distinct(outcome.survivors)
            && Marked(entries, rows, round.currentTick, MarkEliminated(entries, outcome.eliminated, round.currentTick))
  {
    hide Resolve, SurvivorSet, MovesAt;
    var tick := round.currentTick;
    var entrants, alive := Players(entries), AliveUsers(entries);
    var before := AliveAfter(entrants, rows, tick - 1);
    var moves := MovesAt(rows, tick);
    AliveRowsAreReplayed(round, entries, rows);
    ResolveMeetsRule(alive, moves);
    ResolveMeetsRule(before, moves);
    SurvivorsDistinct(alive, moves);
    var outcome := Resolve(alive, moves);
    assert AliveAfter(entrants, rows, tick) == Resolve(before, moves).survivors;
    MarksFollow(round, entries, rows, outcome.eliminated);
  }

  /** The rows after the eliminations of a tick, as the replay has them. */
  ghost predicate Marked(entries: seq<Entry>, rows: seq<MoveRow>, tick: nat, marked: seq<Entry>) {
    var entrants := Players(entries);
    && Players(marked) == entrants && |marked| == |entries|
    && forall i :: 0 <= i < |marked| ==>
         && marked[i].status == (if marked[i].user in AliveAfter(entrants, rows, tick) then Alive else Eliminated)
         && marked[i].eliminatedTick == DroppedAt(entrants, rows, tick, marked[i].user)
  }

  lemma {:induction false} MarksFollow(round: Round, entries: seq<Entry>, rows: seq<MoveRow>, eliminated: seq<UserId>)
    requires Played(round, entries, rows) && round.status == Running
    requires var entrants, tick := Players(entries), round.currentTick;
             var before, after := Users(AliveAfter(entrants, rows, tick - 1)), Users(AliveAfter(entrants, rows, tick));
             Users(eliminated) == before - after && after <= before
    ensures Marked(entries, rows, round.currentTick, MarkEliminated(entries, eliminated, round.currentTick))
  {
    hide AliveAfter;
    var entrants, tick := Players(entries), round.currentTick;
    var before, after := AliveAfter(entrants, rows, tick - 1), AliveAfter(entrants, rows, tick);
    var marked := MarkEliminated(entries, eliminated, tick);
    forall i | 0 <= i < |marked|
      ensures marked[i].status == (if marked[i].user in after then Alive else Eliminated)
      ensures marked[i].eliminatedTick == DroppedAt(entrants, rows, tick, marked[i].user)
    {
      var u := entries[i].user;
      assert u in eliminated <==> u in Users(eliminated);
      assert u in before <==> u in Users(before);
      assert u in after <==> u in Users(after);
    }
    assert Players(marked) == entrants;
  }

  lemma SurvivorsDistinct(alive: seq<UserId>, moves: seq<Move>)
    ensures Distinct(Resolve(alive, moves).survivors)
  {
    SidesAreChoosers(alive, moves, Zero);
    SidesAreChoosers(alive, moves, One);
    CommittersOf(alive, moves);
  }

  // Each transaction keeps the record replayable.

  lemma EmptyConsistent()
    ensures Consistent(EmptyTables)
  {
  }

  /** A transaction that touches one round needs to answer for that round only. */
  lemma OneRound(t: Tables, r: Tables, id: RoundId)
    requires Consistent(t) && Complete(r) && id in r.rounds
    requires r.rounds == t.rounds[id := r.rounds[id]] && r.entries == t.entries[id := r.entries[id]]
    requires r.moves == t.moves[id := r.moves[id]]
    requires Played(r.rounds[id], r.entries[id], r.moves[id])
    ensures Consistent(r)
  {
    hide Played;
  }

  lemma NewSeat(round: Round, entries: seq<Entry>, user: UserId)
    requires Played(round, entries, []) && round.status == Open && user !in Players(entries)
    ensures Played(round, entries + [Entry(user, Alive, None)], [])
  {
    var more := entries + [Entry(user, Alive, None)];
    assert Players(more) == Players(entries) + [user];
    forall i | 0 <= i < |more|
      ensures more[i].status == Alive && more[i].eliminatedTick == None
    {
      if i < |entries| {
        assert more[i] == entries[i];
      }
    }
  }

  lemma OpenHasNoMoves(round: Round, entries: seq<Entry>, rows: seq<MoveRow>)
    requires Played(round, entries, rows) && round.status == Open
    ensures rows == []
  {
    TickSeen(rows, round.currentTick);
  }

  lemma TickSeen(rows: seq<MoveRow>, tick: nat)
    requires forall row :: row in rows ==> 1 <= row.tick <= tick
    ensures rows == [] || tick >= 1
  {
    if rows != [] {
      assert rows[0] in rows;
    }
  }

  /** What joining writes besides money. */
  lemma JoinWrites(t: Tables, id: RoundId, user: UserId, admitted: bool, now: int)
    requires Complete(t)
    ensures var r := Join(t, id, user, admitted, now).0;
            && r.settlements == t.settlements
            && (r != t ==>
              && id in t.rounds && t.rounds[id].status == Open && user !in Players(t.entries[id])
              && r.rounds == t.rounds && r.moves == t.moves
              && r.entries == t.entries[id := t.entries[id] + [Entry(user, Alive, None)]])
  {
    hide Shifted, BalanceOf, Players, StakeOf;
  }

  lemma JoinConsistent(t: Tables, id: RoundId, user: UserId, admitted: bool, now: int)
    requires Consistent(t)
    ensures Consistent(Join(t, id, user, admitted, now).0)
  {
    hide Played, Join;
    var r := Join(t, id, user, admitted, now).0;
    JoinWrites(t, id, user, admitted, now);
    if r != t {
      OpenHasNoMoves(t.rounds[id], t.entries[id], t.moves[id]);
      NewSeat(t.rounds[id], t.entries[id], user);
      OneRound(t, r, id);
    }
  }

  lemma NewMove(round: Round, entries: seq<Entry>, rows: seq<MoveRow>, user: UserId, choice: Choice)
    requires Played(round, entries, rows) && round.status == Running
    requires !exists row :: row in rows && row.tick == round.currentTick && row.user == user
    ensures Played(round, entries, rows + [MoveRow(round.currentTick, user, choice)])
  {
    hide AliveAfter, DroppedAt;
    var entrants, row := Players(entries), MoveRow(round.currentTick, user, choice);
    forall k | 0 <= k < round.currentTick ensures AliveAfter(entrants, rows + [row], k) == AliveAfter(entrants, rows, k) {
      Frozen(entrants, rows, row, k);
    }
    Frozen(entrants, rows, row, round.currentTick - 1);
    assert OncePerTick(rows + [row]) by {
      forall i | 0 <= i < |rows| ensures rows[i].tick != row.tick || rows[i].user != row.user {
        assert rows[i] in rows;
      }
    }
  }

  lemma CommitConsistent(t: Tables, id: RoundId, user: UserId, choice: Choice, now: int)
    requires Consistent(t)
    ensures Consistent(CommitMove(t, id, user, choice, now).0)
  {
    hide Played;
    var r := CommitMove(t, id, user, choice, now).0;
    if r != t {
      NewMove(t.rounds[id], t.entries[id], t.moves[id], user, choice);
      OneRound(t, r, id);
    }
  }

  lemma Started(round: Round, entries: seq<Entry>, deadline: int)
    requires Played(round, entries, []) && round.status == Open
    ensures |entries| < round.minPlayers ==> Played(round.(status := Aborted), MarkRefunded(entries), [])
    ensures |entries| >= round.minPlayers ==>
              Played(round.(status := Running, currentTick := 1, tickDeadline := Some(deadline)), entries, [])
  {
    assert Players(MarkRefunded(entries)) == Players(entries);
    forall i | 0 <= i < |entries| ensures entries[i].user in Players(entries) {
      assert Players(entries)[i] == entries[i].user;
    }
  }

  /** What starting or aborting a round writes besides money. */
  lemma StartWrites(t: Tables, id: RoundId, now: int)
    requires Complete(t) && id in t.rounds
    ensures var r := StartOrAbort(t, id, now); var round, entries := t.rounds[id], t.entries[id];
            && r.moves == t.moves
            && (|entries| < round.minPlayers ==>
                  && r.rounds == t.rounds[id := round.(status := Aborted)]
                  && r.entries == t.entries[id := MarkRefunded(entries)])
            && (|entries| >= round.minPlayers ==>
                  && r.rounds == t.rounds[id := round.(status := Running, currentTick := 1,
                                                       tickDeadline := Some(now + round.tickSeconds))]
                  && r.entries == t.entries[id := entries])
  {
    hide RefundAll, MarkRefunded, StakeOf;
    if |t.entries[id]| < t.rounds[id].minPlayers {
    } else {
    }
  }

  lemma StartConsistent(t: Tables, id: RoundId, now: int)
    requires Consistent(t) && id in t.rounds && t.rounds[id].status == Open
    ensures Consistent(StartOrAbort(t, id, now))
  {
    hide Played, StartOrAbort, MarkRefunded;
    OpenHasNoMoves(t.rounds[id], t.entries[id], t.moves[id]);
    Started(t.rounds[id], t.entries[id], now + t.rounds[id].tickSeconds);
    StartWrites(t, id, now);
    OneRound(t, StartOrAbort(t, id, now), id);
  }

  /** However the tick ends, the round is again what its replay says. */
  lemma {:induction false} TickPlayed(round: Round, entries: seq<Entry>, rows: seq<MoveRow>, marked: seq<Entry>,
                                      survivors: seq<UserId>, deadline: int)
    requires Played(round, entries, rows) && round.status == Running
    requires Marked(entries, rows, round.currentTick, marked)
    requires Users(survivors) == Users(AliveAfter(Players(entries), rows, round.currentTick)) && Distinct(survivors)
    ensures |survivors| == 0 ==> Played(round.(status := Aborted), marked, rows)
    ensures |survivors| == 1 ==>
              Played(round.(status := Settled, winner := Some(survivors[0])), MarkWon(marked, survivors[0]), rows)
    ensures |survivors| > 1 ==>
              Played(round.(currentTick := round.currentTick + 1, tickDeadline := Some(deadline)), marked, rows)
  {
    hide AliveAfter, DroppedAt;
    var standing := AliveAfter(Players(entries), rows, round.currentTick);
    DistinctSize(survivors);
    forall u ensures u in standing <==> u in survivors {
      InUsers(standing, survivors, u);
    }
    if |survivors| == 1 {
      assert survivors == [survivors[0]];
      assert Players(MarkWon(marked, survivors[0])) == Players(marked);
      assert Users(standing) == {survivors[0]};
    }
  }

  /** What resolving a tick writes besides money. */
  lemma ResolveWrites(t: Tables, id: RoundId, now: int)
    requires Complete(t) && id in t.rounds
    ensures var r, reply := ResolveCurrentTick(t, id, now).0, ResolveCurrentTick(t, id, now).1;
            var round, outcome, marked := t.rounds[id], TickOutcomeOf(t, id), MarkedEntries(t, id);
            if reply != Ok then r == t && |outcome.survivors| == 1
            else
              && r.moves == t.moves && r.rounds.Keys == t.rounds.Keys
              && r.rounds == t.rounds[id := r.rounds[id]] && r.entries == t.entries[id := r.entries[id]]
              && (|outcome.survivors| == 0 ==> r.rounds[id] == round.(status := Aborted) && r.entries[id] == marked)
              && (|outcome.survivors| == 1 ==>
                    && r.rounds[id] == round.(status := Settled, winner := Some(outcome.survivors[0]))
                    && r.entries[id] == MarkWon(marked, outcome.survivors[0]))
              && (|outcome.survivors| > 1 ==>
                    && r.rounds[id] == round.(currentTick := round.currentTick + 1, tickDeadline := Some(now + round.tickSeconds))
                    && r.entries[id] == marked)
  {
    hide MarkEliminated, MarkWon, Resolve, MovesAt, AliveUsers, PayOut, RefundAll, StakeOf, TickOutcomeOf, MarkedEntries;
    if |TickOutcomeOf(t, id).survivors| == 0 {
    } else if |TickOutcomeOf(t, id).survivors| == 1 {
    } else {
    }
  }

  lemma ResolveConsistent(t: Tables, id: RoundId, now: int)
    requires Consistent(t) && id in t.rounds && t.rounds[id].status == Running
    ensures Consistent(ResolveCurrentTick(t, id, now).0)
  {
    hide Played, Marked, MarkEliminated, MarkWon, Resolve, MovesAt, AliveAfter, AliveUsers, Users,
      ResolveCurrentTick, Distinct;
    var round, entries, rows := t.rounds[id], t.entries[id], t.moves[id];
    TickReplays(round, entries, rows);
    var outcome := TickOutcomeOf(t, id);
    var r := ResolveCurrentTick(t, id, now).0;
    var marked := MarkedEntries(t, id);
    TickPlayed(round, entries, rows, marked, outcome.survivors, now + round.tickSeconds);
    ResolveWrites(t, id, now);
    if r != t {
      OneRound(t, r, id);
    }
  }

  lemma OpenConsistent(t: Tables, id: RoundId, terms: Round, joinWindow: nat, now: int)
    requires Consistent(t)
    ensures Consistent(EnsureOpenRound(t, id, terms, joinWindow, now).0)
  {
    var r := EnsureOpenRound(t, id, terms, joinWindow, now).0;
    if r != t {
      assert Played(r.rounds[id], [], []);
      OneRound(t, r, id);
    }
  }

  lemma StepConsistent(t: Tables, e: Timed)
    requires Consistent(t)
    ensures Consistent(Step(t, e))
  {
    hide Played;
    match e.event
    case OpensRound(id, terms, joinWindow) => OpenConsistent(t, id, terms, joinWindow, e.now);
    case Joins(id, user, admitted) => JoinConsistent(t, id, user, admitted, e.now);
    case Commits(id, user, choice) => CommitConsistent(t, id, user, choice, e.now);
    case Advances(id) =>
      if id in t.rounds {
        if t.rounds[id].status == Open {
          StartConsistent(t, id, e.now);
        } else if t.rounds[id].status == Running {
          ResolveConsistent(t, id, e.now);
        }
      }
    case Deposits(signature, baseUnits, owner, feeBps) =>
  }

  lemma {:induction false} RunConsistent(events: seq<Timed>)
    ensures Consistent(Run(events))
  {
    if events == [] {
      EmptyConsistent();
    } else {
      RunConsistent(events[..|events| - 1]);
      StepConsistent(Run(events[..|events| - 1]), events[|events| - 1]);
    }
  }
}
