/**
 * What each arcade transaction comes to, told in amounts, seats and deadlines: who is paid what when a round ends, what
 * a seat costs and who may take one, which moves are accepted, and what a deposit is worth.
 */
module ArcadeOutcomes {
  import opened Prelude
  import opened LastMan
  import opened Decimals
  import opened ArcadeTables
  import opened ArcadeMoney
  import opened ArcadeReplay
  import opened ArcadeRuns

  // What a reader of the tables looks at.

  function Available(t: Tables, user: UserId, asset: Asset): int {
    if (user, asset) in t.balances then t.balances[(user, asset)].available else 0
  }

  function Escrowed(t: Tables, user: UserId, asset: Asset): int {
    if (user, asset) in t.balances then t.balances[(user, asset)].escrowed else 0
  }

  /** A seat in the round costs something, in this asset. */
  predicate Staked(round: Round, asset: Asset) {
    round.entryAsset == Some(asset.symbol) && round.entryNetwork == Some(asset.network) && round.entryAmount > 0
  }

  ghost predicate Seated(entries: seq<Entry>, user: UserId) {
    exists i :: 0 <= i < |entries| && entries[i].user == user
  }

  lemma SeatedIsPlayer(entries: seq<Entry>, user: UserId)
    ensures Seated(entries, user) <==> user in Players(entries)
  {
    if i :| 0 <= i < |entries| && entries[i].user == user {
      assert Players(entries)[i] == user;
    }
    if user in Players(entries) {
      var i :| 0 <= i < |Players(entries)| && Players(entries)[i] == user;
      assert entries[i].user == user;
    }
  }

  lemma Lookups(t: Tables, user: UserId, asset: Asset)
    ensures Available(t, user, asset) == BalanceOf(t.balances, user, asset).available
    ensures Escrowed(t, user, asset) == BalanceOf(t.balances, user, asset).escrowed
  {
  }

  // How a round ends.

  /** Event `k` takes the round from still being played, or filled, to this status. */
  ghost predicate EndsAt(events: seq<Timed>, k: nat, id: RoundId, status: RoundStatus)
    requires k < |events|
  {
    var t, r := Run(events[..k]), Run(events[..k + 1]);
    && id in t.rounds && (t.rounds[id].status == Open || t.rounds[id].status == Running)
    && id in r.rounds && r.rounds[id].status == status && (status == Settled || status == Aborted)
  }

  /** Only advancing the round itself ends it. */
  lemma EndedByAdvance(events: seq<Timed>, k: nat, id: RoundId, status: RoundStatus)
    requires k < |events| && EndsAt(events, k, id, status)
    ensures events[k].event == Advances(id)
    ensures Run(events[..k + 1]) == Advance(Run(events[..k]), id, events[k].now).0
    ensures id !in Run(events[..k]).settlements
  {
    hide Run, Join, Advance, RecordDeposit;
    AfterEvent(events, k);
    ClaimNeverRefused(events[..k], id);
    RunConsistent(events[..k]);
    var t, e := Run(events[..k]), events[k];
    match e.event
    case OpensRound(x, terms, joinWindow) =>
    case Joins(x, user, admitted) => JoinWrites(t, x, user, admitted, e.now);
    case Commits(x, user, choice) =>
    case Advances(x) => if x != id { AdvancesApart(t, x, e.now, id); }
    case Deposits(signature, baseUnits, owner, feeBps) => DepositWrites(t, signature, baseUnits, owner, feeBps);
  }

  lemma AdvancesApart(t: Tables, x: RoundId, now: int, id: RoundId)
    requires Complete(t) && id in t.rounds && x != id
    ensures id in Advance(t, x, now).0.rounds && Advance(t, x, now).0.rounds[id] == t.rounds[id]
  {
    if x in t.rounds && t.rounds[x].status == Open {
      StartWrites(t, x, now);
    } else if x in t.rounds && t.rounds[x].status == Running {
      ResolveWrites(t, x, now);
    }
  }

  /**
   * A settled round pays its winner the whole pot less the rounded-down rake, takes every entry out of escrow, and
   * changes no other balance. The ledger and the settlement say the same.
   */
  lemma {:induction false} SettlementPays(events: seq<Timed>, k: nat, id: RoundId, asset: Asset)
    requires k < |events| && EndsAt(events, k, id, Settled) && Staked(Run(events[..k]).rounds[id], asset)
    ensures var t, r := Run(events[..k]), Run(events[..k + 1]);
            var round, entries := t.rounds[id], t.entries[id];
            var pot := |entries| * round.entryAmount;
            var rake := pot * round.rakeBps / 10000;
            && r.rounds[id].winner.Some? && var winner := r.rounds[id].winner.value;
               && Seated(entries, winner) && pot >= rake
               && (forall u, a :: Available(r, u, a) ==
                     Available(t, u, a) + (if u == winner && a == asset then pot - rake else 0))
               && (forall u, a :: Escrowed(r, u, a) ==
                     Escrowed(t, u, a) - (if Seated(entries, u) && a == asset then round.entryAmount else 0))
               && r.settlements == t.settlements[id := Settlement(pot, rake, pot - rake)]
               && r.ledger == t.ledger + [LedgerRow(Some(winner), Some(id), PayoutRow, asset, pot - rake)]
                              + (if rake == 0 then [] else [LedgerRow(None, Some(id), RakeRow, asset, rake)])
               && r.deposits == t.deposits
  {
    hide Run, Advance, Sound, Staked, Players, Available, Escrowed, Seated;
    EndedByAdvance(events, k, id, Settled);
    RunSound(events[..k]);
    var t, r := Run(events[..k]), Run(events[..k + 1]);
    WinnerSeated(events[..k + 1], id);
    PlayersStay(t, r, id, events[k].now);
    SettledTables(t, r, id, events[k].now, asset);
    forall u ensures Seated(t.entries[id], u) <==> u in Players(t.entries[id]) {
      SeatedIsPlayer(t.entries[id], u);
    }
  }

  lemma {:induction false} WinnerSeated(events: seq<Timed>, id: RoundId)
    requires id in Run(events).rounds && Run(events).rounds[id].status == Settled
    ensures var t := Run(events); t.rounds[id].winner.Some? && t.rounds[id].winner.value in Players(t.entries[id])
  {
    hide Run;
    RunConsistent(events);
    var t := Run(events);
    var round, entries, rows := t.rounds[id], t.entries[id], t.moves[id];
    AliveShrinks(Players(entries), rows, round.currentTick);
    assert round.winner.value in Users(AliveAfter(Players(entries), rows, round.currentTick));
  }

  lemma PlayersStay(t: Tables, r: Tables, id: RoundId, now: int)
    requires Complete(t) && id in t.rounds && r == Advance(t, id, now).0
    ensures id in r.entries && Players(r.entries[id]) == Players(t.entries[id])
  {
    hide ResolveCurrentTick, StartOrAbort, Resolve, AliveUsers, MovesAt;
    if t.rounds[id].status == Open {
      StartWrites(t, id, now);
    } else if t.rounds[id].status == Running {
      ResolveWrites(t, id, now);
    }
  }

  /** What paying a winner leaves in the tables, in amounts. */
  ghost predicate Pays(t: Tables, r: Tables, id: RoundId, asset: Asset, winner: UserId, pot: int, rake: int)
    requires id in t.rounds && id in t.entries
  {
    var round, entries := t.rounds[id], t.entries[id];
    && (forall u, a :: Available(r, u, a) == Available(t, u, a) + (if u == winner && a == asset then pot - rake else 0))
    && (forall u, a :: Escrowed(r, u, a) ==
          Escrowed(t, u, a) - (if u in Players(entries) && a == asset then round.entryAmount else 0))
    && r.settlements == t.settlements[id := Settlement(pot, rake, pot - rake)]
    && r.ledger == t.ledger + [LedgerRow(Some(winner), Some(id), PayoutRow, asset, pot - rake)]
                   + (if rake == 0 then [] else [LedgerRow(None, Some(id), RakeRow, asset, rake)])
    && r.deposits == t.deposits
  }

  lemma SettledTables(t: Tables, r: Tables, id: RoundId, now: int, asset: Asset)
    requires Sound(t) && id in t.rounds && id !in t.settlements && Staked(t.rounds[id], asset)
    requires Unfinished(t.rounds[id]) && r == Advance(t, id, now).0
    requires id in r.rounds && r.rounds[id].status == Settled && r.rounds[id].winner.Some?
    ensures var pot := |t.entries[id]| * t.rounds[id].entryAmount; var rake := pot * t.rounds[id].rakeBps / 10000;
            pot >= rake && Pays(t, r, id, asset, r.rounds[id].winner.value, pot, rake)
  {
    hide AvailableIsLedger, EscrowIsSeats, RoundsClear, Conserved, SettledOnce, RefundAll, Resolve, AliveUsers, MovesAt,
      MarkEliminated, MarkWon, StartOrAbort, ResolveCurrentTick, PayOut, Pays, MarkedEntries;
    if t.rounds[id].status == Open {
      StartWrites(t, id, now);
    } else {
      ResolveWrites(t, id, now);
      PaidByTick(t, r, id, now);
      var winner := TickOutcomeOf(t, id).survivors[0];
      var won := WithRound(t, id, r.rounds[id], r.entries[id]);
      MarksKeepSize(t, id);
      SeatsHaveRows(t, id, Stake(asset, t.rounds[id].entryAmount, t.rounds[id].rakeBps));
      PlayersStay(t, r, id, now);
      PayOutMeans(t, won, r, id, winner, Stake(asset, t.rounds[id].entryAmount, t.rounds[id].rakeBps));
    }
  }

  lemma PaidByTick(t: Tables, r: Tables, id: RoundId, now: int)
    requires Complete(t) && id in t.rounds && t.rounds[id].status == Running && StakeOf(t.rounds[id]).Some?
    requires r == ResolveCurrentTick(t, id, now).0 && id in r.rounds && r.rounds[id].status == Settled
    ensures |TickOutcomeOf(t, id).survivors| == 1
    ensures var winner := TickOutcomeOf(t, id).survivors[0];
            r.rounds[id].winner == Some(winner)
            && PayOut(WithRound(t, id, r.rounds[id], r.entries[id]), id, winner, StakeOf(t.rounds[id]).value) == Some(r)
  {
  }

  lemma PayOutMeans(t: Tables, won: Tables, r: Tables, id: RoundId, winner: UserId, stake: Stake)
    requires Complete(t) && id in t.rounds && id !in t.settlements && stake.amount > 0 && id in won.entries
    requires won == t.(rounds := won.rounds, entries := won.entries) && Players(won.entries[id]) == Players(t.entries[id])
    requires stake.amount == t.rounds[id].entryAmount
    requires Distinct(Players(t.entries[id])) && forall u :: u in Players(t.entries[id]) ==> (u, stake.asset) in t.balances
    requires PayOut(won, id, winner, stake) == Some(r)
    ensures var pot := |t.entries[id]| * stake.amount; var rake := pot * stake.rakeBps / 10000;
            pot >= rake && Pays(t, r, id, stake.asset, winner, pot, rake)
  {
    hide Total, ShiftEach, Deposited;
    var users := Players(t.entries[id]);
    assert |won.entries[id]| == |Players(won.entries[id])| == |users| == |t.entries[id]|;
    ShiftEachEffect(t.balances, users, stake.asset, 0, -(stake.amount as int));
    var pot := stake.amount * |won.entries[id]|;
    var rake := RakeUnits(pot, stake.rakeBps);
    RakeWithinPot(pot, stake.rakeBps);
    DepositedEffect(ShiftEach(t.balances, users, stake.asset, 0, -(stake.amount as int)), winner, stake.asset, pot - rake);
    forall u, a ensures Available(r, u, a) == BalanceOf(r.balances, u, a).available
    ensures Escrowed(r, u, a) == BalanceOf(r.balances, u, a).escrowed
    ensures Available(t, u, a) == BalanceOf(t.balances, u, a).available
    ensures Escrowed(t, u, a) == BalanceOf(t.balances, u, a).escrowed {
      Lookups(r, u, a);
      Lookups(t, u, a);
    }
  }

  /** A refund for each entrant, in the order they sit. */
  ghost predicate RefundsEach(rows: seq<LedgerRow>, entries: seq<Entry>, id: RoundId, asset: Asset, amount: nat) {
    && |rows| == |entries|
    && forall i :: 0 <= i < |entries| ==> rows[i] == LedgerRow(Some(entries[i].user), Some(id), RefundRow, asset, amount)
  }

  /** An aborted round gives every entrant exactly their entry back, from escrow, and changes no other balance. */
  lemma {:induction false} AbortRefunds(events: seq<Timed>, k: nat, id: RoundId, asset: Asset)
    requires k < |events| && EndsAt(events, k, id, Aborted) && Staked(Run(events[..k]).rounds[id], asset)
    ensures var t, r := Run(events[..k]), Run(events[..k + 1]);
            var entries, amount := t.entries[id], t.rounds[id].entryAmount;
            && (forall u, a :: Available(r, u, a) ==
                  Available(t, u, a) + (if Seated(entries, u) && a == asset then amount else 0))
            && (forall u, a :: Escrowed(r, u, a) ==
                  Escrowed(t, u, a) - (if Seated(entries, u) && a == asset then amount else 0))
            && r.settlements == t.settlements[id := Settlement(0, 0, 0)]
            && t.ledger <= r.ledger && RefundsEach(r.ledger[|t.ledger|..], entries, id, asset, amount)
            && r.deposits == t.deposits
  {
    hide Run, Advance, RefundsEach, Sound, Staked, Players, Available, Escrowed, Seated;
    EndedByAdvance(events, k, id, Aborted);
    RunSound(events[..k]);
    var t, r := Run(events[..k]), Run(events[..k + 1]);
    AbortedTables(t, r, id, events[k].now, asset);
    forall u ensures Seated(t.entries[id], u) <==> u in Players(t.entries[id]) {
      SeatedIsPlayer(t.entries[id], u);
    }
  }

  ghost predicate Refunds(t: Tables, r: Tables, id: RoundId, asset: Asset, amount: nat)
    requires id in t.entries
  {
    var users := Players(t.entries[id]);
    && (forall u, a :: Available(r, u, a) == Available(t, u, a) + (if u in users && a == asset then amount else 0))
    && (forall u, a :: Escrowed(r, u, a) == Escrowed(t, u, a) - (if u in users && a == asset then amount else 0))
    && r.settlements == t.settlements[id := Settlement(0, 0, 0)]
    && t.ledger <= r.ledger && RefundsEach(r.ledger[|t.ledger|..], t.entries[id], id, asset, amount)
    && r.deposits == t.deposits
  }

  lemma AbortedTables(t: Tables, r: Tables, id: RoundId, now: int, asset: Asset)
    requires Sound(t) && id in t.rounds && id !in t.settlements && Staked(t.rounds[id], asset)
    requires Unfinished(t.rounds[id]) && r == Advance(t, id, now).0
    requires id in r.rounds && r.rounds[id].status == Aborted
    ensures Refunds(t, r, id, asset, t.rounds[id].entryAmount)
  {
    hide AvailableIsLedger, EscrowIsSeats, RoundsClear, Conserved, SettledOnce, RefundAll, Resolve, AliveUsers, MovesAt,
      MarkEliminated, MarkWon, StartOrAbort, ResolveCurrentTick, PayOut, Refunds, MarkedEntries, MarkRefunded;
    var stake := Stake(asset, t.rounds[id].entryAmount, t.rounds[id].rakeBps);
    SeatsHaveRows(t, id, stake);
    PlayersStay(t, r, id, now);
    if t.rounds[id].status == Open {
      StartWrites(t, id, now);
      RefundedAtStart(t, r, id, now);
    } else {
      ResolveWrites(t, id, now);
      RefundedByTick(t, r, id, now);
    }
    RefundMeans(t, WithRound(t, id, r.rounds[id], r.entries[id]), r, id, stake);
  }

  lemma RefundedAtStart(t: Tables, r: Tables, id: RoundId, now: int)
    requires Complete(t) && id in t.rounds && t.rounds[id].status == Open && StakeOf(t.rounds[id]).Some?
    requires r == StartOrAbort(t, id, now) && id in r.rounds && r.rounds[id].status == Aborted
    ensures RefundAll(WithRound(t, id, r.rounds[id], r.entries[id]), id, StakeOf(t.rounds[id]).value) == r
  {
    hide ShiftEach, RefundRows, MarkRefunded, Players;
  }

  lemma RefundedByTick(t: Tables, r: Tables, id: RoundId, now: int)
    requires Complete(t) && id in t.rounds && t.rounds[id].status == Running && StakeOf(t.rounds[id]).Some?
    requires r == ResolveCurrentTick(t, id, now).0 && id in r.rounds && r.rounds[id].status == Aborted
    ensures RefundAll(WithRound(t, id, r.rounds[id], r.entries[id]), id, StakeOf(t.rounds[id]).value) == r
  {
    hide RefundAll, PayOut, TickOutcomeOf, MarkedEntries, MarkWon;
    ResolveWrites(t, id, now);
    assert |TickOutcomeOf(t, id).survivors| == 0;
  }

  lemma RefundMeans(t: Tables, aborted: Tables, r: Tables, id: RoundId, stake: Stake)
    requires Complete(t) && id in t.rounds && id !in t.settlements && stake.amount > 0 && id in aborted.entries
    requires aborted == t.(rounds := aborted.rounds, entries := aborted.entries)
    requires Players(aborted.entries[id]) == Players(t.entries[id])
    requires Distinct(Players(t.entries[id])) && forall u :: u in Players(t.entries[id]) ==> (u, stake.asset) in t.balances
    requires RefundAll(aborted, id, stake) == r
    ensures Refunds(t, r, id, stake.asset, stake.amount)
  {
    hide Total, ShiftEach, RefundRows, RefundsEach;
    var users := Players(t.entries[id]);
    ShiftEachEffect(t.balances, users, stake.asset, stake.amount, -(stake.amount as int));
    RefundRowsMean(t.entries[id], id, stake);
    assert r.ledger == t.ledger + RefundRows(id, stake, users);
    assert r.ledger[|t.ledger|..] == RefundRows(id, stake, users);
    forall u, a
      ensures Available(r, u, a) == BalanceOf(r.balances, u, a).available
      ensures Escrowed(r, u, a) == BalanceOf(r.balances, u, a).escrowed
      ensures Available(t, u, a) == BalanceOf(t.balances, u, a).available
      ensures Escrowed(t, u, a) == BalanceOf(t.balances, u, a).escrowed
    {
      Lookups(r, u, a);
      Lookups(t, u, a);
    }
  }

  lemma {:induction false} RefundRowsMean(entries: seq<Entry>, id: RoundId, stake: Stake)
    ensures RefundsEach(RefundRows(id, stake, Players(entries)), entries, id, stake.asset, stake.amount)
  {
    if entries != [] {
      var init := entries[..|entries| - 1];
      assert Players(init) == Players(entries)[..|entries| - 1];
      RefundRowsMean(init, id, stake);
    }
  }

  /** A round without a stake ends without touching money. */
  lemma {:induction false} FreeRoundEnds(events: seq<Timed>, k: nat, id: RoundId, status: RoundStatus)
    requires k < |events| && EndsAt(events, k, id, status)
    requires forall a :: !Staked(Run(events[..k]).rounds[id], a)
    ensures var t, r := Run(events[..k]), Run(events[..k + 1]);
            r.balances == t.balances && r.ledger == t.ledger && r.settlements == t.settlements && r.deposits == t.deposits
  {
    hide Run, Advance;
    EndedByAdvance(events, k, id, status);
    FreeAdvance(Run(events[..k]), id, events[k].now);
  }

  lemma FreeAdvance(t: Tables, id: RoundId, now: int)
    requires Complete(t) && id in t.rounds && forall a :: !Staked(t.rounds[id], a)
    ensures var r := Advance(t, id, now).0;
            r.balances == t.balances && r.ledger == t.ledger && r.settlements == t.settlements && r.deposits == t.deposits
  {
    hide ResolveCurrentTick, StartOrAbort;
    FreeStart(t, id, now);
    FreeTick(t, id, now);
  }

  lemma FreeStake(round: Round)
    requires forall a :: !Staked(round, a)
    ensures StakeOf(round).None? || StakeOf(round).value.amount == 0
  {
    if StakeOf(round).Some? {
      assert !Staked(round, StakeOf(round).value.asset);
    }
  }

  lemma FreeStart(t: Tables, id: RoundId, now: int)
    requires Complete(t) && id in t.rounds && forall a :: !Staked(t.rounds[id], a)
    ensures var r := StartOrAbort(t, id, now);
            r.balances == t.balances && r.ledger == t.ledger && r.settlements == t.settlements && r.deposits == t.deposits
  {
    hide StakeOf, Staked, MarkRefunded, Players, ShiftEach, RefundRows;
    FreeStake(t.rounds[id]);
  }

  lemma FreeTick(t: Tables, id: RoundId, now: int)
    requires Complete(t) && id in t.rounds && forall a :: !Staked(t.rounds[id], a)
    ensures var r := ResolveCurrentTick(t, id, now).0;
            r.balances == t.balances && r.ledger == t.ledger && r.settlements == t.settlements && r.deposits == t.deposits
  {
    hide StakeOf, Staked, TickOutcomeOf, MarkedEntries, MarkWon, Players, ShiftEach, RefundRows, RakeUnits;
    FreeStake(t.rounds[id]);
  }
}
