/** What becomes of a round whose settlement is refused: a run that reaches it, and how long it stays so. */
module ArcadeRefusals {
  import opened Prelude
  import opened LastMan
  import opened Decimals
  import opened ArcadeTables
  import opened ArcadeMoney
  import opened ArcadeReplay
  import opened ArcadeRuns

  // A refused settlement is tried again with every due advance, and refused each time until a move is accepted.

  /** The current tick leaves one survivor, whose payout would be below zero. */
  ghost predicate Doomed(t: Tables, id: RoundId)
    requires Complete(t)
  {
    && id in t.rounds && t.rounds[id].status == Running && |TickOutcomeOf(t, id).survivors| == 1
    && var pot := Seat(t.rounds[id]) * |t.entries[id]|; Seat(t.rounds[id]) > 0 && pot < RakeUnits(pot, t.rounds[id].rakeBps)
  }

  /** Event `i` of the run is a due attempt to resolve a tick of the round, and is refused. */
  ghost predicate RefusedAt(events: seq<Timed>, i: nat, id: RoundId)
    requires i < |events|
  {
    events[i].event == Advances(id) && Advance(Run(events[..i]), id, events[i].now).1 == ConstraintViolated
  }

  /** Event `k` of the run is a move of the round, and is accepted. */
  ghost predicate MovedAt(events: seq<Timed>, k: nat, id: RoundId)
    requires k < |events|
  {
    var e := events[k].event;
    e.Commits? && e.id == id && CommitMove(Run(events[..k]), id, e.user, e.choice, events[k].now).1 == Ok
  }

  ghost predicate SameRows(t: Tables, r: Tables, id: RoundId)
    requires Complete(t) && Complete(r) && id in t.rounds
  {
    id in r.rounds && r.rounds[id] == t.rounds[id] && r.entries[id] == t.entries[id] && r.moves[id] == t.moves[id]
  }

  lemma OnlyDoomedRefused(t: Tables, id: RoundId, now: int)
    requires Complete(t) && (id in t.rounds && Unfinished(t.rounds[id]) ==> id !in t.settlements)
    ensures Advance(t, id, now).1 == ConstraintViolated <==> Doomed(t, id) && !Early(t.rounds[id].tickDeadline, now)
    ensures Advance(t, id, now).1 == ConstraintViolated ==> Advance(t, id, now).0 == t
  {
    hide Resolve, MovesAt, AliveUsers, RakeUnits, MarkEliminated, MarkWon, RefundAll, PayOut, StartOrAbort;
    if id in t.rounds && t.rounds[id].status == Running && !Early(t.rounds[id].tickDeadline, now)
       && |TickOutcomeOf(t, id).survivors| == 1 {
      DueTick(t, id, now);
    }
  }

  /** Nothing but an accepted move changes the rows of a doomed round. */
  lemma DoomedStep(t: Tables, e: Timed, id: RoundId)
    requires Complete(t) && Doomed(t, id) && id !in t.settlements
    ensures var r := Step(t, e);
            SameRows(t, r, id) <==> !(e.event.Commits? && e.event.id == id
                                      && CommitMove(t, id, e.event.user, e.event.choice, e.now).1 == Ok)
    ensures e.event.Commits? && e.event.id == id && CommitMove(t, id, e.event.user, e.event.choice, e.now).1 == Ok ==>
              !Overdue(t.rounds[id].tickDeadline, e.now)
  {
    hide Advance, RecordDeposit, TickOutcomeOf, RakeUnits, Join;
    match e.event
    case OpensRound(x, terms, joinWindow) =>
    case Joins(x, user, admitted) => JoinsElsewhere(t, x, user, admitted, e.now, id);
    case Commits(x, user, choice) =>
    case Advances(x) => AdvancesElsewhere(t, x, e.now, id);
    case Deposits(signature, baseUnits, owner, feeBps) => DepositWrites(t, signature, baseUnits, owner, feeBps);
  }

  lemma JoinsElsewhere(t: Tables, x: RoundId, user: UserId, admitted: bool, now: int, id: RoundId)
    requires Complete(t) && id in t.rounds && t.rounds[id].status == Running
    ensures SameRows(t, Join(t, x, user, admitted, now).0, id)
  {
    JoinWrites(t, x, user, admitted, now);
  }

  lemma AdvancesElsewhere(t: Tables, x: RoundId, now: int, id: RoundId)
    requires Complete(t) && Doomed(t, id) && id !in t.settlements
    ensures SameRows(t, Advance(t, x, now).0, id)
  {
    hide Resolve, MovesAt, AliveUsers, MarkEliminated, MarkWon, Players, RakeUnits;
    if x == id {
      if !Early(t.rounds[id].tickDeadline, now) {
        DueTick(t, id, now);
      }
    } else if x in t.rounds && t.rounds[x].status == Open {
      StartWrites(t, x, now);
    } else if x in t.rounds && t.rounds[x].status == Running {
      ResolveWrites(t, x, now);
    }
  }

  /** From a refusal on, the rows of the round stay as they were exactly as long as no move of the round is accepted. */
  lemma {:induction false} StuckIff(events: seq<Timed>, i: nat, j: nat, id: RoundId)
    requires i < j <= |events| && RefusedAt(events, i, id)
    ensures id in Run(events[..i]).rounds
    ensures (forall k :: i < k < j ==> !MovedAt(events, k, id)) <==>
            forall k :: i < k <= j ==> SameRows(Run(events[..i]), Run(events[..k]), id)
    decreases j
  {
    hide Run, Step, Advance, CommitMove;
    Refused(events, i, id);
    if j == i + 1 {
      AfterEvent(events, i);
      AdvanceStep(Run(events[..i]), events[i], id);
    } else {
      StuckIff(events, i, j - 1, id);
      if forall k :: i < k < j - 1 ==> !MovedAt(events, k, id) {
        var t := Run(events[..j - 1]);
        SameDoom(Run(events[..i]), t, id);
        ClaimNeverRefused(events[..j - 1], id);
        AfterEvent(events, j - 1);
        DoomedStep(t, events[j - 1], id);
        assert SameRows(Run(events[..i]), Run(events[..j]), id) <==> !MovedAt(events, j - 1, id);
      } else {
        assert !(forall k :: i < k <= j - 1 ==> SameRows(Run(events[..i]), Run(events[..k]), id));
      }
    }
  }

  lemma SameDoom(t: Tables, r: Tables, id: RoundId)
    requires Complete(t) && Complete(r) && Doomed(t, id) && SameRows(t, r, id)
    ensures Doomed(r, id)
  {
    hide Resolve, MovesAt, AliveUsers, RakeUnits;
  }

  lemma Refused(events: seq<Timed>, i: nat, id: RoundId)
    requires i < |events| && RefusedAt(events, i, id)
    ensures var t := Run(events[..i]); Doomed(t, id) && Advance(t, id, events[i].now).0 == t
    ensures !Early(Run(events[..i]).rounds[id].tickDeadline, events[i].now)
  {
    hide Run, Advance, Doomed;
    var t := Run(events[..i]);
    if id in t.rounds && Unfinished(t.rounds[id]) {
      ClaimNeverRefused(events[..i], id);
    }
    OnlyDoomedRefused(t, id, events[i].now);
  }

  /** So until a move is accepted, every due attempt is refused and changes nothing. */
  lemma {:induction false} RefusedUntilMove(events: seq<Timed>, i: nat, j: nat, id: RoundId, now: int)
    requires i < j <= |events| && RefusedAt(events, i, id) && forall k :: i < k < j ==> !MovedAt(events, k, id)
    ensures var t := Run(events[..j]);
            && id in t.rounds && t.rounds[id] == Run(events[..i]).rounds[id]
            && (Advance(t, id, now) == (t, ConstraintViolated) <==> !Early(t.rounds[id].tickDeadline, now))
  {
    hide Run, Advance, Doomed, MovedAt;
    StuckIff(events, i, j, id);
    Refused(events, i, id);
    var t := Run(events[..j]);
    assert SameRows(Run(events[..i]), t, id);
    SameDoom(Run(events[..i]), t, id);
    DoomedRuns(t, id);
    ClaimNeverRefused(events[..j], id);
    OnlyDoomedRefused(t, id, now);
  }

  lemma DoomedRuns(t: Tables, id: RoundId)
    requires Complete(t) && Doomed(t, id)
    ensures id in t.rounds && Unfinished(t.rounds[id])
  {
  }

  /** No move is accepted after the deadline, so once the clock is past it the refusals never end. */
  lemma {:induction false} RefusedForEver(events: seq<Timed>, i: nat, j: nat, id: RoundId)
    requires i < j < |events| && RefusedAt(events, i, id) && events[j].event == Advances(id)
    requires forall k :: i < k <= j ==> Overdue(Run(events[..i]).rounds[id].tickDeadline, events[k].now)
    ensures RefusedAt(events, j, id) && Run(events[..j + 1]) == Run(events[..j])
  {
    hide Run, Advance, Step;
    Refused(events, i, id);
    NoLateMove(events, i, j, id);
    RefusedUntilMove(events, i, j, id, events[j].now);
    AfterEvent(events, j);
    AdvanceStep(Run(events[..j]), events[j], id);
  }

  lemma {:induction false} NoLateMove(events: seq<Timed>, i: nat, j: nat, id: RoundId)
    requires i < j < |events| && RefusedAt(events, i, id)
    requires forall k :: i < k <= j ==> Overdue(Run(events[..i]).rounds[id].tickDeadline, events[k].now)
    ensures forall k :: i < k < j ==> !MovedAt(events, k, id)
    decreases j
  {
    hide Run, Advance, Step, CommitMove;
    if j > i + 1 {
      NoLateMove(events, i, j - 1, id);
      StuckIff(events, i, j - 1, id);
      var t := Run(events[..j - 1]);
      Refused(events, i, id);
      assert SameRows(Run(events[..i]), t, id);
      SameDoom(Run(events[..i]), t, id);
      ClaimNeverRefused(events[..j - 1], id);
      DoomedStep(t, events[j - 1], id);
      assert Overdue(t.rounds[id].tickDeadline, events[j - 1].now);
    }
  }

  // A run that gets there: two players staked one unit of USDC each at twice the whole pot, and only one moves.

  const TERMS := Round(1, Open, 0, 60, None, 0, 2, 2, None, STEP, Some(USDC_SYMBOL), Some(SOLANA_MAINNET), 20000)
  const BEGUN := TERMS.(joinCloses := 30, status := Running, currentTick := 1, tickDeadline := Some(90))
  const SEATS := [Entry(1, Alive, None), Entry(2, Alive, None)]
  const GAME := [Timed(0, Deposits(1, 1, Some(1), 0)), Timed(0, Deposits(2, 1, Some(2), 0)),
                 Timed(0, OpensRound(1, TERMS, 30)), Timed(1, Joins(1, 1, true)), Timed(1, Joins(1, 2, true)),
                 Timed(30, Advances(1)), Timed(40, Commits(1, 1, Zero)), Timed(90, Advances(1)),
                 Timed(90, Commits(1, 2, One)), Timed(90, Advances(1))]

  /** What matters of the tables: the one round, its seats and moves, and what the players may still stake. */
  ghost predicate Shows(t: Tables, round: Round, seats: seq<Entry>, moves: seq<MoveRow>, first: int, second: int) {
    && t.rounds == map[1 := round] && t.entries == map[1 := seats] && t.moves == map[1 := moves]
    && BalanceOf(t.balances, 1, USDC).available == first && BalanceOf(t.balances, 2, USDC).available == second
  }

  lemma Funded()
    ensures var t := Run(GAME[..2]); t.rounds == map[] && t.entries == map[] && t.moves == map[]
    ensures var t := Run(GAME[..2]);
            BalanceOf(t.balances, 1, USDC).available == STEP && BalanceOf(t.balances, 2, USDC).available == STEP
  {
    AfterEvent(GAME, 0);
    AfterEvent(GAME, 1);
    assert GAME[..0] == [];
    assert FeeUnits(1 * STEP, 0) == 0;
    assert Run(GAME[..1]).balances == map[(1, USDC) := Balance(STEP, 0)];
  }

  lemma Seated()
    ensures Shows(Run(GAME[..5]), TERMS.(joinCloses := 30), SEATS, [], 0, 0)
  {
    hide Run, RecordDeposit;
    Funded();
    AfterEvent(GAME, 2);
    AfterEvent(GAME, 3);
    AfterEvent(GAME, 4);
    var accepting := Run(GAME[..3]);
    assert Shows(accepting, TERMS.(joinCloses := 30), [], [], STEP, STEP);
    FirstJoins(accepting);
    SecondJoins(Run(GAME[..4]));
  }

  lemma FirstJoins(t: Tables)
    requires Complete(t) && Shows(t, TERMS.(joinCloses := 30), [], [], STEP, STEP)
    ensures Shows(Step(t, GAME[3]), TERMS.(joinCloses := 30), SEATS[..1], [], 0, STEP)
  {
    assert Players([]) == [];
    assert [] + [Entry(1, Alive, None)] == SEATS[..1];
  }

  lemma SecondJoins(t: Tables)
    requires Complete(t) && Shows(t, TERMS.(joinCloses := 30), SEATS[..1], [], 0, STEP)
    ensures Shows(Step(t, GAME[4]), TERMS.(joinCloses := 30), SEATS, [], 0, 0)
  {
    assert Players(SEATS[..1]) == [1];
    assert SEATS[..1] + [Entry(2, Alive, None)] == SEATS;
  }

  lemma FirstMoved()
    ensures Shows(Run(GAME[..7]), BEGUN, SEATS, [MoveRow(1, 1, Zero)], 0, 0)
  {
    hide Run;
    Seated();
    AfterEvent(GAME, 5);
    AfterEvent(GAME, 6);
    assert Shows(Run(GAME[..6]), BEGUN, SEATS, [], 0, 0);
    assert [] + [MoveRow(1, 1, Zero)] == [MoveRow(1, 1, Zero)];
  }

  lemma OneLeft(t: Tables, first: int, second: int)
    requires Complete(t) && Shows(t, BEGUN, SEATS, [MoveRow(1, 1, Zero)], first, second)
    ensures Doomed(t, 1)
  {
    hide Resolve, MovesAt, AliveUsers;
    SeatsAlive();
    FirstMoveAt();
    AloneSurvives();
    assert RakeUnits(2 * STEP, 20000) == 4 * STEP;
  }

  lemma SeatsAlive()
    ensures AliveUsers(SEATS) == [1, 2]
  {
    assert SEATS[1..] == [SEATS[1]] && SEATS[1..][1..] == [];
  }

  lemma FirstMoveAt()
    ensures MovesAt([MoveRow(1, 1, Zero)], 1) == [Move(1, Zero)]
  {
    assert [MoveRow(1, 1, Zero)][..0] == [];
  }

  lemma AloneSurvives()
    ensures |Resolve([1, 2], [Move(1, Zero)]).survivors| == 1
  {
    var moves := [Move(1, Zero)];
    assert moves[..0] == [] && Committed([1, 2], []) == [];
    assert Committed([1, 2], moves) == moves;
    assert moves[1..] == [];
    assert Choosers(moves, Zero) == [1] && Choosers(moves, One) == [];
  }

  /** The refusal happens: a run reaches it. */
  lemma RefusalReached()
    ensures RefusedAt(GAME, 7, 1)
  {
    hide Run, Advance, Shows, Doomed;
    FirstMoved();
    FirstDoomed(Run(GAME[..7]));
    ClaimNeverRefused(GAME[..7], 1);
    OnlyDoomedRefused(Run(GAME[..7]), 1, 90);
  }

  lemma FirstDoomed(t: Tables)
    requires Complete(t) && Shows(t, BEGUN, SEATS, [MoveRow(1, 1, Zero)], 0, 0)
    ensures Doomed(t, 1) && 1 in t.rounds && Unfinished(t.rounds[1]) && !Early(t.rounds[1].tickDeadline, 90)
  {
    hide Doomed;
    OneLeft(t, 0, 0);
  }

  /** At the deadline itself a move is still accepted, and this one frees the round: both players go on. */
  lemma MoveFrees()
    ensures MovedAt(GAME, 8, 1) && !RefusedAt(GAME, 9, 1)
    ensures 1 in Run(GAME).rounds && Run(GAME).rounds[1] == BEGUN.(currentTick := 2, tickDeadline := Some(150))
  {
    hide Run, Step, Shows, Advance;
    RefusalReached();
    Refused(GAME, 7, 1);
    AfterEvent(GAME, 7);
    AdvanceStep(Run(GAME[..7]), GAME[7], 1);
    FirstMoved();
    AfterEvent(GAME, 8);
    SecondMoves(Run(GAME[..8]));
    AfterEvent(GAME, 9);
    AdvanceStep(Run(GAME[..9]), GAME[9], 1);
    GoesOn(Run(GAME[..9]));
    assert GAME[..10] == GAME;
  }

  lemma SecondMoves(t: Tables)
    requires Complete(t) && Shows(t, BEGUN, SEATS, [MoveRow(1, 1, Zero)], 0, 0)
    ensures CommitMove(t, 1, 2, One, 90).1 == Ok
    ensures Shows(Step(t, GAME[8]), BEGUN, SEATS, [MoveRow(1, 1, Zero), MoveRow(1, 2, One)], 0, 0)
  {
    assert SEATS[1..] == [SEATS[1]];
    assert EntryStatusOf(SEATS, 2) == Some(Alive);
    assert [MoveRow(1, 1, Zero)] + [MoveRow(1, 2, One)] == [MoveRow(1, 1, Zero), MoveRow(1, 2, One)];
  }

  lemma GoesOn(t: Tables)
    requires Complete(t) && Shows(t, BEGUN, SEATS, [MoveRow(1, 1, Zero), MoveRow(1, 2, One)], 0, 0)
    ensures Advance(t, 1, 90).1 == Ok
    ensures 1 in Advance(t, 1, 90).0.rounds
    ensures Advance(t, 1, 90).0.rounds[1] == BEGUN.(currentTick := 2, tickDeadline := Some(150))
  {
    hide MarkEliminated, Resolve, RefundAll, PayOut, MovesAt, AliveUsers;
    SeatsAlive();
    BothMovesAt();
    BothSurvive();
  }

  lemma BothMovesAt()
    ensures MovesAt([MoveRow(1, 1, Zero), MoveRow(1, 2, One)], 1) == [Move(1, Zero), Move(2, One)]
  {
    var rows := [MoveRow(1, 1, Zero), MoveRow(1, 2, One)];
    assert rows[..1] == [rows[0]];
    FirstMoveAt();
  }

  lemma BothSurvive()
    ensures |Resolve([1, 2], [Move(1, Zero), Move(2, One)]).survivors| == 2
  {
    var moves := [Move(1, Zero), Move(2, One)];
    assert moves[..1] == [moves[0]] && moves[..1][..0] == [];
    assert Committed([1, 2], moves[..1]) == [Move(1, Zero)];
    assert [Move(1, Zero)][1..] == [];
    assert Committed([1, 2], moves) == moves;
    assert moves[1..] == [moves[1]] && moves[1..][1..] == [];
    assert Choosers(moves, Zero) == [1] && Choosers(moves, One) == [2];
  }
}
