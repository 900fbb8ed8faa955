/** Who may open, join and move, what a seat costs, what a tick decides, and what a deposit is worth. */
module ArcadeSeats {
  import opened Prelude
  import opened LastMan
  import opened Decimals
  import opened ArcadeTables
  import opened ArcadeMoney
  import opened ArcadeReplay
  import opened ArcadeRuns
  import opened ArcadeOutcomes

  // Joining.

  /** The player can be given a new seat. */
  ghost predicate MayJoin(t: Tables, id: RoundId, user: UserId, admitted: bool, now: int)
    requires Complete(t)
  {
    && id in t.rounds && t.rounds[id].status == Open && now < t.rounds[id].joinCloses
    && |t.entries[id]| < t.rounds[id].maxPlayers && admitted && !Seated(t.entries[id], user)
    && forall a :: Staked(t.rounds[id], a) ==> Available(t, user, a) >= t.rounds[id].entryAmount
  }

  /** The seat is taken and paid for: the entry moves from what is available into escrow, with one line in the ledger. */
  ghost predicate TakesSeat(t: Tables, r: Tables, id: RoundId, user: UserId)
    requires Complete(t) && id in t.rounds
  {
    var round := t.rounds[id];
    && r == t.(entries := t.entries[id := t.entries[id] + [Entry(user, Alive, None)]], balances := r.balances,
               ledger := r.ledger)
    && (forall u, a :: Available(r, u, a) ==
          Available(t, u, a) - (if u == user && Staked(round, a) then round.entryAmount else 0))
    && (forall u, a :: Escrowed(r, u, a) ==
          Escrowed(t, u, a) + (if u == user && Staked(round, a) then round.entryAmount else 0))
    && (forall a :: Staked(round, a) ==>
          r.ledger == t.ledger + [LedgerRow(Some(user), Some(id), StakeRow, a, -(round.entryAmount as int))])
    && ((forall a :: !Staked(round, a)) ==> r.ledger == t.ledger)
  }

  /** A seat is taken exactly when one may be; otherwise nothing changes and the reply says what stood in the way. */
  lemma JoinMeans(t: Tables, id: RoundId, user: UserId, admitted: bool, now: int)
    requires Complete(t)
    ensures var (r, reply) := Join(t, id, user, admitted, now);
            if MayJoin(t, id, user, admitted, now) then reply == Ok && TakesSeat(t, r, id, user)
            else
              && r == t
              && reply ==
                   if id !in t.rounds then RoundNotFound
                   else if t.rounds[id].status != Open || t.rounds[id].joinCloses <= now then RoundClosed
                   else if |t.entries[id]| >= t.rounds[id].maxPlayers then RoundFull
                   else if !admitted then NotAdmitted
                   else if Seated(t.entries[id], user) then Ok
                   else InsufficientBalance
  {
    hide TakesSeat, Players;
    if id in t.rounds {
      SeatedIsPlayer(t.entries[id], user);
      if StakeOf(t.rounds[id]).Some? {
        Lookups(t, user, StakeOf(t.rounds[id]).value.asset);
      }
      if MayJoin(t, id, user, admitted, now) {
        SeatTaken(t, id, user, admitted, now);
      } else if StakeOf(t.rounds[id]).None? || StakeOf(t.rounds[id]).value.amount == 0 {
        assert forall a :: !Staked(t.rounds[id], a);
      }
    }
  }

  lemma SeatTaken(t: Tables, id: RoundId, user: UserId, admitted: bool, now: int)
    requires Complete(t) && MayJoin(t, id, user, admitted, now)
    ensures Join(t, id, user, admitted, now).1 == Ok && TakesSeat(t, Join(t, id, user, admitted, now).0, id, user)
  {
    hide Players;
    SeatedIsPlayer(t.entries[id], user);
    var round := t.rounds[id];
    if StakeOf(round).Some? && round.entryAmount > 0 {
      var asset := StakeOf(round).value.asset;
      assert Staked(round, asset);
      Lookups(t, user, asset);
    }
  }

  /** No round ever has more entries than it has seats. */
  lemma {:induction false} NeverOverfull(events: seq<Timed>, id: RoundId)
    requires id in Run(events).rounds
    ensures |Run(events).entries[id]| <= Run(events).rounds[id].maxPlayers
  {
    hide Step;
    if events != [] {
      var t, e := Run(events[..|events| - 1]), events[|events| - 1];
      if id in t.rounds {
        NeverOverfull(events[..|events| - 1], id);
      }
      SeatsWithin(t, e, id);
    }
  }

  lemma SeatsWithin(t: Tables, e: Timed, id: RoundId)
    requires Complete(t) && (id in t.rounds ==> |t.entries[id]| <= t.rounds[id].maxPlayers) && id in Step(t, e).rounds
    ensures |Step(t, e).entries[id]| <= Step(t, e).rounds[id].maxPlayers
  {
    hide Join, Advance, RecordDeposit;
    match e.event
    case OpensRound(x, terms, joinWindow) =>
    case Joins(x, user, admitted) =>
      JoinMeans(t, x, user, admitted, e.now);
      JoinWrites(t, x, user, admitted, e.now);
    case Commits(x, user, choice) =>
    case Advances(x) => AdvanceSeats(t, x, e.now, id);
    case Deposits(signature, baseUnits, owner, feeBps) => DepositWrites(t, signature, baseUnits, owner, feeBps);
  }

  lemma AdvanceSeats(t: Tables, x: RoundId, now: int, id: RoundId)
    requires Complete(t) && id in Advance(t, x, now).0.rounds
    ensures var r := Advance(t, x, now).0;
            id in t.rounds && |r.entries[id]| == |t.entries[id]| && r.rounds[id].maxPlayers == t.rounds[id].maxPlayers
  {
    hide StartOrAbort, ResolveCurrentTick, TickOutcomeOf;
    if x in t.rounds && t.rounds[x].status == Open {
      StartWrites(t, x, now);
    } else if x in t.rounds && t.rounds[x].status == Running {
      ResolveWrites(t, x, now);
    }
  }

  // Opening.

  /** A round of the game is accepting players at this reading. */
  ghost predicate Accepting(t: Tables, game: Id, now: int) {
    exists x :: x in t.rounds && t.rounds[x].game == game && t.rounds[x].status == Open && now < t.rounds[x].joinCloses
  }

  /** One that is accepting players is used; otherwise the new round has the game's terms, no players and no moves. */
  lemma OpenMeans(t: Tables, id: RoundId, terms: Round, joinWindow: nat, now: int)
    requires Complete(t)
    ensures var (r, reply) := EnsureOpenRound(t, id, terms, joinWindow, now);
            if Accepting(t, terms.game, now) then r == t && reply == Ok
            else if id in t.rounds then r == t && reply == ConstraintViolated
            else
              && reply == Ok && r == t.(rounds := r.rounds, entries := t.entries[id := []], moves := t.moves[id := []])
              && r.rounds == t.rounds[id := Round(terms.game, Open, 0, terms.tickSeconds, None, now + joinWindow,
                                                  terms.minPlayers, terms.maxPlayers, None, terms.entryAmount,
                                                  terms.entryAsset, terms.entryNetwork, terms.rakeBps)]
  {
  }

  // Moving.

  /** The player can make a move for the current tick. */
  ghost predicate MayMove(t: Tables, id: RoundId, user: UserId, now: int)
    requires Complete(t)
  {
    && id in t.rounds && t.rounds[id].status == Running
    && (forall deadline :: t.rounds[id].tickDeadline == Some(deadline) ==> now <= deadline)
    && (exists i :: 0 <= i < |t.entries[id]| && t.entries[id][i].user == user && t.entries[id][i].status == Alive)
    && forall c :: MoveRow(t.rounds[id].currentTick, user, c) !in t.moves[id]
  }

  /** In every run a move is recorded, for the tick under way and as chosen, exactly when one may be made. */
  lemma {:induction false} MoveMeans(events: seq<Timed>, id: RoundId, user: UserId, choice: Choice, now: int)
    ensures var t := Run(events); var (r, reply) := CommitMove(t, id, user, choice, now);
            && (reply == Ok <==> MayMove(t, id, user, now))
            && r == if reply != Ok then t else
                      t.(moves := t.moves[id := t.moves[id] + [MoveRow(t.rounds[id].currentTick, user, choice)]])
  {
    hide Run;
    RunConsistent(events);
    var t := Run(events);
    if id in t.rounds {
      EntryFound(t.entries[id], user);
      MovedAlready(t.moves[id], t.rounds[id].currentTick, user);
    }
  }

  lemma MovedAlready(rows: seq<MoveRow>, tick: nat, user: UserId)
    ensures (exists row :: row in rows && row.tick == tick && row.user == user) <==>
            exists c :: MoveRow(tick, user, c) in rows
  {
    if row :| row in rows && row.tick == tick && row.user == user {
      assert MoveRow(tick, user, row.choice) in rows;
    }
  }

  lemma {:induction false} EntryFound(entries: seq<Entry>, user: UserId)
    requires Distinct(Players(entries))
    ensures EntryStatusOf(entries, user) == Some(Alive) <==>
            exists i :: 0 <= i < |entries| && entries[i].user == user && entries[i].status == Alive
  {
    if entries != [] {
      var rest := entries[1..];
      assert Players(rest) == Players(entries)[1..];
      assert forall i :: 0 <= i < |rest| ==> rest[i] == entries[i + 1];
      assert forall i :: 0 <= i < |entries| ==> Players(entries)[i] == entries[i].user;
      EntryFound(rest, user);
      if i :| 0 <= i < |entries| && entries[i].user == user && entries[i].status == Alive {
        if i > 0 {
          assert rest[i - 1] == entries[i];
        }
      }
    }
  }

  // A tick.

  /** The players still in who chose this side of the tick under way. */
  ghost function Chose(t: Tables, id: RoundId, choice: Choice): set<UserId>
    requires Complete(t) && id in t.rounds
  {
    set i | 0 <= i < |t.entries[id]| && t.entries[id][i].status == Alive
            && MoveRow(t.rounds[id].currentTick, t.entries[id][i].user, choice) in t.moves[id] :: t.entries[id][i].user
  }

  /** The smaller of two unequal sides that both have players; otherwise everybody who moved. */
  ghost function StayIn(t: Tables, id: RoundId): set<UserId>
    requires Complete(t) && id in t.rounds
  {
    var zero, one := Chose(t, id, Zero), Chose(t, id, One);
    if 0 < |zero| < |one| then zero else if 0 < |one| < |zero| then one else zero + one
  }

  /**
   * In every run: a tick whose deadline has not come is left alone; a due one ends the round without players, ends it
   * with its one player as the winner, or goes on to the next tick with a full new deadline. Only a payout below zero
   * can stop it, and then nothing changes.
   */
  lemma {:induction false} TickMeans(events: seq<Timed>, id: RoundId, now: int)
    requires id in Run(events).rounds && Run(events).rounds[id].status == Running
    ensures var t := Run(events); var (r, reply) := Advance(t, id, now); var round, stay := t.rounds[id], StayIn(t, id);
            if exists deadline :: round.tickDeadline == Some(deadline) && now < deadline then r == t && reply == Ok
            else if reply != Ok then r == t && |stay| == 1 && reply == ConstraintViolated
            else
              && id in r.rounds && r.rounds == t.rounds[id := r.rounds[id]] && r.moves == t.moves
              && r.rounds[id] ==
                   (if |stay| == 0 then round.(status := Aborted)
                    else if |stay| == 1 then round.(status := Settled, winner := r.rounds[id].winner)
                    else round.(currentTick := round.currentTick + 1, tickDeadline := Some(now + round.tickSeconds)))
              && (|stay| == 1 ==> r.rounds[id].winner.Some? && stay == {r.rounds[id].winner.value})
  {
    hide Run, StartOrAbort, ResolveCurrentTick, Resolve, AliveUsers, MovesAt, StayIn;
    RunConsistent(events);
    var t := Run(events);
    ResolveWrites(t, id, now);
    SurvivorsStay(t, id);
    var survivors := TickOutcomeOf(t, id).survivors;
    DistinctSize(survivors);
    assert |survivors| == 1 ==> survivors == [survivors[0]];
    RefusalReply(t, id, now);
  }

  lemma RefusalReply(t: Tables, id: RoundId, now: int)
    requires Complete(t) && id in t.rounds
    ensures ResolveCurrentTick(t, id, now).1 in {Ok, ConstraintViolated}
  {
    hide Resolve, AliveUsers, MovesAt, RefundAll, PayOut;
  }

  lemma SurvivorsStay(t: Tables, id: RoundId)
    requires Consistent(t) && id in t.rounds && t.rounds[id].status == Running
    ensures Users(TickOutcomeOf(t, id).survivors) == StayIn(t, id) && Distinct(TickOutcomeOf(t, id).survivors)
  {
    hide Resolve, AliveUsers, MovesAt, Played;
    var entries, rows, tick := t.entries[id], t.moves[id], t.rounds[id].currentTick;
    var alive, moves := AliveUsers(entries), MovesAt(rows, tick);
    OnceEach(t.rounds[id], entries, rows);
    MovesAtRows(rows, tick);
    AliveUsersOf(entries);
    ResolveMeetsRule(alive, moves);
    SurvivorsDistinct(alive, moves);
    forall c, u ensures u in Side(Users(alive), moves, c) <==> u in Chose(t, id, c) {
      ChoiceIsTheMove(moves, u, c);
      assert Move(u, c) in moves <==> MoveRow(tick, u, c) in rows;
    }
    assert Side(Users(alive), moves, Zero) == Chose(t, id, Zero);
    assert Side(Users(alive), moves, One) == Chose(t, id, One);
    NoBigger(Chose(t, id, Zero), Chose(t, id, One));
  }

  lemma OnceEach(round: Round, entries: seq<Entry>, rows: seq<MoveRow>)
    requires Played(round, entries, rows)
    ensures OncePerTick(rows)
  {
  }

  lemma NoBigger(zero: set<UserId>, one: set<UserId>)
    ensures Survivors(zero, one) == if 0 < |zero| < |one| then zero else if 0 < |one| < |zero| then one else zero + one
  {
  }

  /** A round still filling starts its first tick with a full deadline when it has its minimum, and is aborted if not. */
  lemma StartMeans(t: Tables, id: RoundId, now: int)
    requires Complete(t) && id in t.rounds && t.rounds[id].status != Running
    ensures var (r, reply) := Advance(t, id, now); var round, entries := t.rounds[id], t.entries[id];
            && reply == Ok
            && (round.status != Open ==> r == t)
            && (round.status == Open && |entries| >= round.minPlayers ==>
                  r == t.(rounds := t.rounds[id := round.(status := Running, currentTick := 1,
                                                          tickDeadline := Some(now + round.tickSeconds))]))
            && (round.status == Open && |entries| < round.minPlayers ==>
                  && r.rounds == t.rounds[id := round.(status := Aborted)] && r.moves == t.moves
                  && id in r.entries && r.entries == t.entries[id := r.entries[id]] && |r.entries[id]| == |entries|
                  && forall i :: 0 <= i < |entries| ==> r.entries[id][i] == entries[i].(status := Refunded))
  {
    hide RefundAll;
    if t.rounds[id].status == Open {
      StartWrites(t, id, now);
      assert t.entries[id := t.entries[id]] == t.entries;
    }
  }

  // Publication.

  /** A round is published exactly when it is over, with all its entries and moves. */
  lemma PublishedMeans(t: Tables, id: RoundId)
    requires Complete(t)
    ensures Verification(t, id) ==
            if id in t.rounds && t.rounds[id].status != Open && t.rounds[id].status != Running
            then Some((t.rounds[id], t.entries[id], t.moves[id])) else None
  {
  }

  // Deposits.

  /**
   * A transfer seen before changes nothing. A new one with no owner is recorded with nothing credited; with an owner,
   * the owner gets exactly the base units received less the rounded-down fee, and nobody else gets anything.
   */
  lemma DepositMeans(t: Tables, signature: Signature, baseUnits: nat, owner: Option<UserId>, feeBps: FeeBps)
    ensures var r := RecordDeposit(t, signature, baseUnits, owner, feeBps);
            var unit := 1000000000000; var fee := baseUnits * feeBps / 10000;
            && (signature in t.deposits ==> r == t)
            && (signature !in t.deposits && owner.None? ==>
                  r == t.(deposits := t.deposits[signature := Deposit(baseUnits * unit, 0, 0, None)]))
            && (signature !in t.deposits && owner.Some? ==>
                  && fee <= baseUnits
                  && r.deposits == t.deposits[signature := Deposit(baseUnits * unit, fee * unit, (baseUnits - fee) * unit,
                                                                   owner)]
                  && (forall u, a :: Available(r, u, a) ==
                        Available(t, u, a) + (if Some(u) == owner && a == USDC then (baseUnits - fee) * unit else 0))
                  && (forall u, a :: Escrowed(r, u, a) == Escrowed(t, u, a))
                  && r.ledger == t.ledger + [LedgerRow(owner, None, DepositRow, USDC, (baseUnits - fee) * unit)]
                  && r == t.(deposits := r.deposits, balances := r.balances, ledger := r.ledger))
  {
    hide FeeUnits;
    NestedRounding(baseUnits, feeBps);
    ShareWithin(baseUnits, feeBps);
    var fee := baseUnits * feeBps / 10000;
    assert (baseUnits - fee) * 1000000000000 == baseUnits * STEP - fee * STEP;
  }
}
