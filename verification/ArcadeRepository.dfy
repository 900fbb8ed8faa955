/**
 * The repositories as they are written: rows updated in place, one method per transaction, rolled back on refusal.
 * Every method is proved to move the tables exactly as the specification in ArcadeTables says.
 */
module ArcadeRepository {
  import opened Prelude
  import opened LastMan
  import opened Decimals
  import opened ArcadeTables

  class StakeRepository {
    var balances: map<(UserId, Asset), Balance>
    var ledger: seq<LedgerRow>
    var settlements: map<RoundId, Settlement>

    constructor ()
      ensures balances == map[] && ledger == [] && settlements == map[]
    {
      balances, ledger, settlements := map[], [], map[];
    }

    method Record(row: LedgerRow)
      modifies `ledger
      ensures ledger == old(ledger) + [row]
    {
      ledger := ledger + [row];
    }

    method Credit(user: UserId, asset: Asset, amount: int)
      modifies `balances, `ledger
      ensures balances == Deposited(old(balances), user, asset, amount)
      ensures ledger == old(ledger) + [LedgerRow(Some(user), None, DepositRow, asset, amount)]
    {
      Upsert(user, asset, amount);
      Record(LedgerRow(Some(user), None, DepositRow, asset, amount));
    }

    method Upsert(user: UserId, asset: Asset, amount: int)
      modifies `balances
      ensures balances == Deposited(old(balances), user, asset, amount)
    {
      if (user, asset) in balances {
        var row := balances[(user, asset)];
        balances := balances[(user, asset) := row.(available := row.available + amount)];
      } else {
        balances := balances[(user, asset) := Balance(amount, 0)];
      }
    }

    method Shift(user: UserId, asset: Asset, available: int, escrowed: int)
      modifies `balances
      ensures balances == Shifted(old(balances), user, asset, available, escrowed)
    {
      if (user, asset) in balances {
        var row := balances[(user, asset)];
        balances := balances[(user, asset) := Balance(row.available + available, row.escrowed + escrowed)];
      }
    }

    /** False, with nothing changed, when the balance is too small. */
    method Escrow(user: UserId, round: RoundId, asset: Asset, amount: nat) returns (ok: bool)
      modifies `balances, `ledger
      ensures ok == (amount == 0 || amount <= BalanceOf(old(balances), user, asset).available)
      ensures balances ==
        if ok && amount > 0 then Shifted(old(balances), user, asset, -(amount as int), amount) else old(balances)
      ensures ledger ==
        if ok && amount > 0
        then old(ledger) + [LedgerRow(Some(user), Some(round), StakeRow, asset, -(amount as int))] else old(ledger)
    {
      if amount == 0 {
        return true;
      }
      var available := if (user, asset) in balances then balances[(user, asset)].available else 0;
      if available < amount {
        return false;
      }
      Shift(user, asset, -(amount as int), amount);
      Record(LedgerRow(Some(user), Some(round), StakeRow, asset, -(amount as int)));
      ok := true;
    }

    /** The unique round id of a settlement row lets only one caller settle the round. */
    method ClaimSettlement(round: RoundId, pot: int, rake: int, paidOut: int) returns (claimed: bool)
      modifies `settlements
      ensures claimed == (round !in old(settlements))
      ensures settlements ==
        if claimed then old(settlements)[round := Settlement(pot, rake, paidOut)] else old(settlements)
    {
      claimed := round !in settlements;
      if claimed {
        settlements := settlements[round := Settlement(pot, rake, paidOut)];
      }
    }

    method RefundAll(round: RoundId, stake: Stake, entrants: seq<UserId>)
      modifies this
      ensures var due := stake.amount > 0 && round !in old(settlements);
              && balances == (if due then ShiftEach(old(balances), entrants, stake.asset, stake.amount, -(stake.amount as int))
                              else old(balances))
              && ledger == (if due then old(ledger) + RefundRows(round, stake, entrants) else old(ledger))
              && settlements == (if due then old(settlements)[round := Settlement(0, 0, 0)] else old(settlements))
    {
      if stake.amount == 0 {
        return;
      }
      var claimed := ClaimSettlement(round, 0, 0, 0);
      if !claimed {
        return;
      }
      for i := 0 to |entrants|
        invariant balances == ShiftEach(old(balances), entrants[..i], stake.asset, stake.amount, -(stake.amount as int))
        invariant ledger == old(ledger) + RefundRows(round, stake, entrants[..i])
        invariant settlements == old(settlements)[round := Settlement(0, 0, 0)]
      {
        assert entrants[..i + 1][..i] == entrants[..i];
        Shift(entrants[i], stake.asset, stake.amount, -(stake.amount as int));
        Record(LedgerRow(Some(entrants[i]), Some(round), RefundRow, stake.asset, stake.amount));
      }
      assert entrants[..|entrants|] == entrants;
    }

    /** False when the payout would be a negative balance row; the caller then rolls everything back. */
    method PayOut(round: RoundId, winner: UserId, stake: Stake, entrants: seq<UserId>) returns (ok: bool)
      modifies this
      ensures var pot := stake.amount * |entrants|; var rake := RakeUnits(pot, stake.rakeBps);
              var due := stake.amount > 0 && round !in old(settlements);
              && ok == (!due || rake <= pot)
              && (ok ==>
                    && balances == (if due then
                         Deposited(ShiftEach(old(balances), entrants, stake.asset, 0, -(stake.amount as int)),
                                   winner, stake.asset, pot - rake)
                       else old(balances))
                    && ledger == (if due then old(ledger) + PayOutRows(round, winner, stake.asset, pot - rake, rake)
                       else old(ledger))
                    && settlements == (if due then old(settlements)[round := Settlement(pot, rake, pot - rake)]
                       else old(settlements)))
    {
      if stake.amount == 0 {
        return true;
      }
      var pot := stake.amount * |entrants|;
      var rake := RakeUnits(pot, stake.rakeBps);
      var payout := pot - rake;
      var claimed := ClaimSettlement(round, pot, rake, payout);
      if !claimed {
        return true;
      }
      for i := 0 to |entrants|
        invariant balances == ShiftEach(old(balances), entrants[..i], stake.asset, 0, -(stake.amount as int))
        invariant ledger == old(ledger) && settlements == old(settlements)[round := Settlement(pot, rake, payout)]
      {
        assert entrants[..i + 1][..i] == entrants[..i];
        Shift(entrants[i], stake.asset, 0, -(stake.amount as int));
      }
      assert entrants[..|entrants|] == entrants;
      if payout < 0 {
        return false;
      }
      Upsert(winner, stake.asset, payout);
      Record(LedgerRow(Some(winner), Some(round), PayoutRow, stake.asset, payout));
      if rake != 0 {
        Record(LedgerRow(None, Some(round), RakeRow, stake.asset, rake));
      }
      ok := true;
    }
  }

  /** A transfer into the house address, with the account its sender was proved to belong to when it was recorded. */
  datatype Transfer = Transfer(signature: Signature, baseUnits: nat, owner: Option<UserId>)

  /** The tables after recording transfers in order. */
  function Recorded(t: Tables, transfers: seq<Transfer>, feeBps: FeeBps): Tables {
    if transfers == [] then t else
      var last := transfers[|transfers| - 1];
      RecordDeposit(Recorded(t, transfers[..|transfers| - 1], feeBps), last.signature, last.baseUnits, last.owner, feeBps)
  }

  lemma {:induction false} AllSeen(t: Tables, transfers: seq<Transfer>, feeBps: FeeBps)
    ensures var r := Recorded(t, transfers, feeBps);
            && (forall k :: 0 <= k < |transfers| ==> transfers[k].signature in r.deposits)
            && (forall s :: s in t.deposits ==> s in r.deposits && r.deposits[s] == t.deposits[s])
  {
    hide FeeUnits;
    if transfers != [] {
      AllSeen(t, transfers[..|transfers| - 1], feeBps);
    }
  }

  /**
   * Scanning again over transfers already seen credits nobody, whoever their senders belong to by then and whatever
   * the fee has become.
   */
  lemma {:induction false} RescanIsIdle(t: Tables, again: seq<Transfer>, feeBps: FeeBps)
    requires forall k :: 0 <= k < |again| ==> again[k].signature in t.deposits
    ensures Recorded(t, again, feeBps) == t
  {
    if again != [] {
      RescanIsIdle(t, again[..|again| - 1], feeBps);
    }
  }

  class DepositWatcher {
    var running: bool
    var deposits: map<Signature, Deposit>
    const stakes: StakeRepository

    constructor (stakes: StakeRepository)
      ensures this.stakes == stakes && deposits == map[] && !running
    {
      this.stakes := stakes;
      deposits, running := map[], false;
    }

    /** The tables a deposit touches. */
    ghost function Money(): Tables
      reads this, stakes
    {
      EmptyTables.(balances := stakes.balances, ledger := stakes.ledger, deposits := deposits)
    }

    method Record(transfer: Transfer, feeBps: FeeBps)
      modifies `deposits, stakes`balances, stakes`ledger
      ensures Money() == RecordDeposit(old(Money()), transfer.signature, transfer.baseUnits, transfer.owner, feeBps)
    {
      var gross := transfer.baseUnits * STEP;
      FeeWithinGross(transfer.baseUnits, feeBps);
      var fee := if transfer.owner.Some? then FeeUnits(gross, feeBps) else 0;
      var net := if transfer.owner.Some? then gross - fee else 0;
      if transfer.signature in deposits {
        return;
      }
      deposits := deposits[transfer.signature := Deposit(gross, fee, net, transfer.owner)];
      if transfer.owner.Some? {
        stakes.Credit(transfer.owner.value, USDC, net);
      }
    }

    /** One scan at a time; a scan that finds another one running does nothing. */
    method Scan(transfers: seq<Transfer>, feeBps: FeeBps)
      modifies this, stakes`balances, stakes`ledger
      ensures running == old(running)
      ensures Money() == if old(running) then old(Money()) else Recorded(old(Money()), transfers, feeBps)
    {
      if running {
        return;
      }
      running := true;
      for i := 0 to |transfers|
        invariant running && Money() == Recorded(old(Money()), transfers[..i], feeBps)
      {
        assert transfers[..i + 1][..i] == transfers[..i];
        Record(transfers[i], feeBps);
      }
      assert transfers[..|transfers|] == transfers;
      running := false;
    }
  }

  /** A deposit neither reads nor changes anything but balances, ledger and deposits. */
  lemma DepositWithin(t: Tables, signature: Signature, baseUnits: nat, owner: Option<UserId>, feeBps: FeeBps)
    ensures var m := EmptyTables.(balances := t.balances, ledger := t.ledger, deposits := t.deposits);
            var r := RecordDeposit(m, signature, baseUnits, owner, feeBps);
            RecordDeposit(t, signature, baseUnits, owner, feeBps)
            == t.(balances := r.balances, ledger := r.ledger, deposits := r.deposits)
  {
    hide FeeUnits;
  }

  lemma NothingMarked(entries: seq<Entry>, tick: nat)
    ensures MarkEliminated(entries, [], tick) == entries
  {
  }

  lemma PlayersKept(entries: seq<Entry>, winner: UserId)
    ensures Players(MarkWon(entries, winner)) == Players(entries)
    ensures |Players(entries)| == |MarkWon(entries, winner)| == |entries|
  {
  }

  /** Writing a round's entries twice in a transaction is writing the last. */
  lemma LastWriteWins(t: Tables, id: RoundId, first: seq<Entry>, round: Round, last: seq<Entry>)
    requires Complete(t) && id in t.rounds
    ensures Complete(t.(entries := t.entries[id := first]))
    ensures WithRound(t.(entries := t.entries[id := first]), id, round, last) == WithRound(t, id, round, last)
  {
    assert t.entries[id := first][id := last] == t.entries[id := last];
  }

  class RoundRepository {
    var rounds: map<RoundId, Round>
    var entries: map<RoundId, seq<Entry>>
    var moves: map<RoundId, seq<MoveRow>>
    const stakes: StakeRepository
    const watcher: DepositWatcher

    /** All the tables these transactions read or write. */
    ghost function Snapshot(): Tables
      reads this, stakes, watcher
    {
      Tables(rounds, entries, moves, stakes.balances, stakes.ledger, stakes.settlements, watcher.deposits)
    }

    ghost predicate Valid()
      reads this, stakes, watcher
    {
      watcher.stakes == stakes && Complete(Snapshot())
    }

    constructor ()
      ensures Valid() && fresh(stakes) && fresh(watcher) && Snapshot() == EmptyTables
    {
      rounds, entries, moves := map[], map[], map[];
      var shared := new StakeRepository();
      stakes := shared;
      watcher := new DepositWatcher(shared);
    }

    method EnsureOpenRound(id: RoundId, terms: Round, joinWindow: nat, now: int) returns (reply: Reply)
      requires Valid()
      modifies this
      ensures Valid()
      ensures (Snapshot(), reply) == ArcadeTables.EnsureOpenRound(old(Snapshot()), id, terms, joinWindow, now)
    {
      if exists r :: r in rounds && rounds[r].game == terms.game && rounds[r].status == Open && rounds[r].joinCloses > now {
        return Ok;
      }
      if id in rounds {
        return ConstraintViolated;
      }
      var round := terms.(status := Open, currentTick := 0, tickDeadline := None, winner := None,
                          joinCloses := now + joinWindow);
      rounds := rounds[id := round];
      entries := entries[id := []];
      moves := moves[id := []];
      reply := Ok;
    }

    /** The seat is taken first and given back when the stake cannot be paid. */
    method Join(id: RoundId, user: UserId, admitted: bool, now: int) returns (reply: Reply)
      requires Valid()
      modifies this, stakes
      ensures Valid()
      ensures (Snapshot(), reply) == ArcadeTables.Join(old(Snapshot()), id, user, admitted, now)
    {
      if id !in rounds {
        return RoundNotFound;
      }
      var round := rounds[id];
      if round.status != Open || round.joinCloses <= now {
        return RoundClosed;
      }
      if |entries[id]| >= round.maxPlayers {
        return RoundFull;
      }
      if !admitted {
        return NotAdmitted;
      }
      var before := entries;
      var inserted := user !in Players(entries[id]);
      if inserted {
        entries := entries[id := entries[id] + [Entry(user, Alive, None)]];
      }
      var stake := StakeOf(round);
      if stake.Some? && inserted {
        var paid := stakes.Escrow(user, id, stake.value.asset, stake.value.amount);
        if !paid {
          entries := before;
          return InsufficientBalance;
        }
      }
      reply := Ok;
    }

    method Commit(id: RoundId, user: UserId, choice: Choice, now: int) returns (reply: Reply)
      requires Valid()
      modifies `moves
      ensures Valid()
      ensures (Snapshot(), reply) == CommitMove(old(Snapshot()), id, user, choice, now)
    {
      if id !in rounds {
        return RoundNotFound;
      }
      var round := rounds[id];
      if round.status != Running {
        return RoundNotRunning;
      }
      if round.tickDeadline.Some? && now > round.tickDeadline.value {
        return TickClosed;
      }
      var status := EntryStatusOf(entries[id], user);
      if status.None? {
        return NotInRound;
      }
      if status.value != Alive {
        return PlayerEliminated;
      }
      if exists row :: row in moves[id] && row.tick == round.currentTick && row.user == user {
        return AlreadyCommitted;
      }
      moves := moves[id := moves[id] + [MoveRow(round.currentTick, user, choice)]];
      reply := Ok;
    }

    /** Ends the round with every stake returned. */
    method Abort(id: RoundId)
      requires Valid() && id in rounds
      modifies this, stakes
      ensures Valid()
      ensures var t := old(Snapshot()); var round := t.rounds[id];
              var aborted := WithRound(t, id, round.(status := Aborted), t.entries[id]);
              Snapshot() == match StakeOf(round) case None => aborted case Some(stake) => RefundAll(aborted, id, stake)
    {
      hide ShiftEach, RefundRows, StakeOf, Players;
      var round := rounds[id];
      rounds := rounds[id := round.(status := Aborted)];
      assert entries == entries[id := entries[id]];
      var stake := StakeOf(round);
      if stake.Some? {
        stakes.RefundAll(id, stake.value, Players(entries[id]));
      }
    }

    /** Declares the winner and pays the pot, or reports that the payment was refused. */
    method Settle(id: RoundId, winner: UserId) returns (paid: bool)
      requires Valid() && id in rounds
      modifies `rounds, `entries, stakes
      ensures Valid()
      ensures var t := old(Snapshot()); var round := t.rounds[id];
              var won := WithRound(t, id, round.(status := Settled, winner := Some(winner)), MarkWon(t.entries[id], winner));
              match StakeOf(round)
              case None => paid && Snapshot() == won
              case Some(stake) =>
                var r := PayOut(won, id, winner, stake);
                paid == r.Some? && (paid ==> Snapshot() == r.value)
    {
      hide ShiftEach, PayOutRows, StakeOf, Players, Deposited, RakeUnits, MarkWon;
      var round := rounds[id];
      entries := entries[id := MarkWon(entries[id], winner)];
      rounds := rounds[id := round.(status := Settled, winner := Some(winner))];
      PlayersKept(old(entries[id]), winner);
      paid := true;
      var stake := StakeOf(round);
      if stake.Some? {
        paid := stakes.PayOut(id, winner, stake.value, Players(entries[id]));
      }
    }

    method StartOrAbort(id: RoundId, now: int)
      requires Valid() && id in rounds
      modifies this, stakes
      ensures Valid()
      ensures Snapshot() == ArcadeTables.StartOrAbort(old(Snapshot()), id, now)
    {
      hide RefundAll, StakeOf, MarkRefunded;
      var round := rounds[id];
      if |entries[id]| < round.minPlayers {
        LastWriteWins(Snapshot(), id, MarkRefunded(entries[id]), round.(status := Aborted), MarkRefunded(entries[id]));
        entries := entries[id := MarkRefunded(entries[id])];
        Abort(id);
        return;
      }
      rounds := rounds[id := round.(status := Running, currentTick := 1, tickDeadline := Some(now + round.tickSeconds))];
      assert entries == entries[id := entries[id]];
    }

    /** Applies the tick rule to the players alive and marks those it eliminates. */
    method Eliminate(id: RoundId) returns (outcome: TickOutcome)
      requires Valid() && id in rounds
      modifies `entries
      ensures Valid()
      ensures var t := old(Snapshot());
              outcome == TickOutcomeOf(t, id) && Snapshot() == t.(entries := t.entries[id := MarkedEntries(t, id)])
    {
      hide Resolve, MovesAt, AliveUsers, MarkEliminated;
      var tick := rounds[id].currentTick;
      NothingMarked(entries[id], tick);
      outcome := ResolveTick(AliveUsers(entries[id]), MovesAt(moves[id], tick));
      if |outcome.eliminated| > 0 {
        entries := entries[id := MarkEliminated(entries[id], outcome.eliminated, tick)];
      }
      assert entries == old(entries)[id := entries[id]];
    }

    method ResolveCurrentTick(id: RoundId, now: int) returns (reply: Reply)
      requires Valid() && id in rounds
      modifies this, stakes
      ensures Valid()
      ensures (Snapshot(), reply) == ArcadeTables.ResolveCurrentTick(old(Snapshot()), id, now)
    {
      hide TickOutcomeOf, MarkedEntries, MarkWon, StakeOf, RefundAll, PayOut;
      ghost var t := Snapshot();
      var savedRounds, savedEntries := rounds, entries;
      var savedBalances, savedLedger, savedSettlements := stakes.balances, stakes.ledger, stakes.settlements;
      var round := rounds[id];
      var outcome := Eliminate(id);
      ghost var marked := MarkedEntries(t, id);
      reply := Ok;
      if |outcome.survivors| == 0 {
        LastWriteWins(t, id, marked, round.(status := Aborted), marked);
        Abort(id);
      } else if |outcome.survivors| == 1 {
        LastWriteWins(t, id, marked, round.(status := Settled, winner := Some(outcome.survivors[0])),
                      MarkWon(marked, outcome.survivors[0]));
        var paid := Settle(id, outcome.survivors[0]);
        if !paid {
          rounds, entries := savedRounds, savedEntries;
          stakes.balances, stakes.ledger, stakes.settlements := savedBalances, savedLedger, savedSettlements;
          reply := ConstraintViolated;
          assert Snapshot() == t;
        }
      } else {
        rounds := rounds[id := round.(currentTick := round.currentTick + 1, tickDeadline := Some(now + round.tickSeconds))];
        assert Snapshot() == WithRound(t, id, rounds[id], marked);
      }
    }

    method Advance(id: RoundId, now: int) returns (reply: Reply)
      requires Valid()
      modifies this, stakes
      ensures Valid()
      ensures (Snapshot(), reply) == ArcadeTables.Advance(old(Snapshot()), id, now)
    {
      if id !in rounds {
        return Ok;
      }
      var round := rounds[id];
      if round.status == Open {
        StartOrAbort(id, now);
        return Ok;
      }
      if round.status != Running || Early(round.tickDeadline, now) {
        return Ok;
      }
      reply := ResolveCurrentTick(id, now);
    }

    /** Whatever transactions arrive, in whatever order, the repository is in the state their run gives. */
    method Perform(event: Timed, ghost events: seq<Timed>)
      requires Valid() && Snapshot() == Run(events)
      modifies this, stakes, watcher
      ensures Valid() && Snapshot() == Run(events + [event])
    {
      hide ArcadeTables.EnsureOpenRound, ArcadeTables.Join, CommitMove, ArcadeTables.Advance, RecordDeposit;
      assert (events + [event])[..|events|] == events;
      match event.event
      case OpensRound(id, terms, joinWindow) => var _ := EnsureOpenRound(id, terms, joinWindow, event.now);
      case Joins(id, user, admitted) => var _ := Join(id, user, admitted, event.now);
      case Commits(id, user, choice) => var _ := Commit(id, user, choice, event.now);
      case Advances(id) => var _ := Advance(id, event.now);
      case Deposits(signature, baseUnits, owner, feeBps) =>
        DepositWithin(Snapshot(), signature, baseUnits, owner, feeBps);
        watcher.Record(Transfer(signature, baseUnits, owner), feeBps);
    }
  }
}
