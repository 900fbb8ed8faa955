/**
 * What every run of the arcade keeps about money: balances agree with the ledger, escrow agrees with the open
 * seats, each round clears, and nothing is created or lost.
 */
module ArcadeMoney {
  import opened Prelude
  import opened LastMan
  import opened Decimals
  import opened ArcadeTables

  type Balances = map<(UserId, Asset), Balance>

  // Sums over the ledger.

  datatype Query = OfUser(user: UserId, asset: Asset) | OfRound(round: RoundId) | OfHouse(asset: Asset)

  ghost predicate Matches(q: Query, row: LedgerRow) {
    match q
    case OfUser(user, asset) => row.user == Some(user) && row.asset == asset
    case OfRound(round) => row.round == Some(round)
    case OfHouse(asset) => row.kind == RakeRow && row.asset == asset
  }

  ghost function LedgerSum(ledger: seq<LedgerRow>, q: Query): int {
    if ledger == [] then 0 else
      var last := ledger[|ledger| - 1];
      LedgerSum(ledger[..|ledger| - 1], q) + (if Matches(q, last) then last.amount else 0)
  }

  lemma {:induction false} LedgerAppend(ledger: seq<LedgerRow>, row: LedgerRow, q: Query)
    ensures LedgerSum(ledger + [row], q) == LedgerSum(ledger, q) + (if Matches(q, row) then row.amount else 0)
  {
    assert (ledger + [row])[..|ledger|] == ledger;
  }

  // What escrow should hold, and what the house account received.

  predicate Unfinished(round: Round) {
    round.status == Open || round.status == Running
  }

  /** What one seat of the round puts into escrow. */
  function Seat(round: Round): nat {
    if StakeOf(round).Some? then round.entryAmount else 0
  }

  ghost function ClaimOf(round: Round, entries: seq<Entry>, user: UserId, asset: Asset): int {
    if Unfinished(round) && user in Players(entries) && StakeOf(round).Some? && StakeOf(round).value.asset == asset
    then round.entryAmount else 0
  }

  ghost function Claims(t: Tables, user: UserId, asset: Asset): map<RoundId, int>
    requires Complete(t)
  {
    map r | r in t.rounds :: ClaimOf(t.rounds[r], t.entries[r], user, asset)
  }

  ghost function Holdings(balances: Balances, asset: Asset): map<(UserId, Asset), int> {
    map k | k in balances :: if k.1 == asset then balances[k].available + balances[k].escrowed else 0
  }

  ghost function Credited(deposits: map<Signature, Deposit>, asset: Asset): map<Signature, int> {
    map s | s in deposits :: if asset == USDC && deposits[s].user.Some? then deposits[s].net else 0
  }

  ghost function Outstanding(t: Tables, round: RoundId): int
    requires Complete(t)
  {
    if round in t.rounds && Unfinished(t.rounds[round]) then -Times(Seat(t.rounds[round]), |t.entries[round]|) else 0
  }

  // The invariants.

  ghost predicate AvailableIsLedger(t: Tables) {
    forall u, a :: BalanceOf(t.balances, u, a).available == LedgerSum(t.ledger, OfUser(u, a))
  }

  ghost predicate EscrowIsSeats(t: Tables)
    requires Complete(t)
  {
    forall u, a :: BalanceOf(t.balances, u, a).escrowed == Total(Claims(t, u, a))
  }

  ghost predicate RoundsClear(t: Tables)
    requires Complete(t)
  {
    forall r :: LedgerSum(t.ledger, OfRound(r)) == Outstanding(t, r)
  }

  ghost predicate Conserved(t: Tables) {
    forall a :: Total(Holdings(t.balances, a)) + LedgerSum(t.ledger, OfHouse(a)) == Total(Credited(t.deposits, a))
  }

  ghost predicate NoDebt(balances: Balances) {
    forall k :: k in balances ==> balances[k].available >= 0 && balances[k].escrowed >= 0
  }

  /** The settlement row of a staked round is there exactly once it is over. */
  ghost predicate SettledOnce(t: Tables)
    requires Complete(t)
  {
    && (forall r :: r in t.settlements ==> r in t.rounds && !Unfinished(t.rounds[r]))
    && (forall r :: r in t.rounds && !Unfinished(t.rounds[r]) && Seat(t.rounds[r]) > 0 ==> r in t.settlements)
  }

  ghost predicate SeatsDistinct(t: Tables) {
    forall r :: r in t.entries ==> Distinct(Players(t.entries[r]))
  }

  ghost predicate Sound(t: Tables) {
    && Complete(t) && SeatsDistinct(t)
    && AvailableIsLedger(t) && EscrowIsSeats(t) && RoundsClear(t)
    && Conserved(t) && NoDebt(t.balances) && SettledOnce(t)
  }

  // Balance updates.

  lemma ShiftedEffect(balances: Balances, user: UserId, asset: Asset, available: int, escrowed: int)
    requires (user, asset) in balances
    ensures var r := Shifted(balances, user, asset, available, escrowed);
            && r.Keys == balances.Keys
            && (forall u, a :: BalanceOf(r, u, a) ==
                  var b := BalanceOf(balances, u, a);
                  if (u, a) == (user, asset) then Balance(b.available + available, b.escrowed + escrowed) else b)
            && (forall a :: Total(Holdings(r, a)) ==
                  Total(Holdings(balances, a)) + (if a == asset then available + escrowed else 0))
  {
    hide Total;
    var r := Shifted(balances, user, asset, available, escrowed);
    forall a ensures Total(Holdings(r, a)) ==
                     Total(Holdings(balances, a)) + (if a == asset then available + escrowed else 0) {
      HoldingsUpdate(balances, r, (user, asset), a);
    }
  }

  lemma DepositedEffect(balances: Balances, user: UserId, asset: Asset, amount: int)
    ensures var r := Deposited(balances, user, asset, amount);
            && r.Keys == balances.Keys + {(user, asset)}
            && (forall u, a :: BalanceOf(r, u, a) ==
                  var b := BalanceOf(balances, u, a);
                  if (u, a) == (user, asset) then b.(available := b.available + amount) else b)
            && (forall a :: Total(Holdings(r, a)) == Total(Holdings(balances, a)) + (if a == asset then amount else 0))
  {
    hide Total;
    var r := Deposited(balances, user, asset, amount);
    forall a ensures Total(Holdings(r, a)) == Total(Holdings(balances, a)) + (if a == asset then amount else 0) {
      HoldingsUpdate(balances, r, (user, asset), a);
    }
  }

  lemma HoldingsUpdate(balances: Balances, r: Balances, k: (UserId, Asset), asset: Asset)
    requires k in r && r == balances[k := r[k]]
    ensures Total(Holdings(r, asset)) == Total(Holdings(balances, asset))
            + (if k.1 == asset then r[k].available + r[k].escrowed else 0)
            - (if k.1 == asset && k in balances then balances[k].available + balances[k].escrowed else 0)
  {
    var v := if k.1 == asset then r[k].available + r[k].escrowed else 0;
    TotalUpdate(Holdings(balances, asset), k, v);
    assert Holdings(r, asset) == Holdings(balances, asset)[k := v];
  }

  /** Shifting the rows of distinct users shifts each of their balances once, and the total by all of it. */
  lemma {:induction false} ShiftEachEffect(balances: Balances, users: seq<UserId>, asset: Asset, available: int,
                                           escrowed: int)
    requires Distinct(users) && forall u :: u in users ==> (u, asset) in balances
    ensures var r := ShiftEach(balances, users, asset, available, escrowed);
            && r.Keys == balances.Keys
            && (forall u, a :: BalanceOf(r, u, a) ==
                  var b := BalanceOf(balances, u, a);
                  if u in users && a == asset then Balance(b.available + available, b.escrowed + escrowed) else b)
            && (forall a :: Total(Holdings(r, a)) ==
                  Total(Holdings(balances, a)) + (if a == asset then Times(available + escrowed, |users|) else 0))
  {
    hide Total;
    if users != [] {
      var init, user := users[..|users| - 1], users[|users| - 1];
      assert users == init + [user];
      ShiftEachEffect(balances, init, asset, available, escrowed);
      assert user !in init;
      ShiftedEffect(ShiftEach(balances, init, asset, available, escrowed), user, asset, available, escrowed);
    }
  }

  ghost function RefundSum(round: RoundId, stake: Stake, users: seq<UserId>, q: Query): int {
    match q
    case OfUser(u, a) => if u in users && a == stake.asset then stake.amount else 0
    case OfRound(r) => if r == round then Times(stake.amount, |users|) else 0
    case OfHouse(_) => 0
  }

  lemma {:induction false} RefundLedger(ledger: seq<LedgerRow>, round: RoundId, stake: Stake, users: seq<UserId>,
                                        q: Query)
    requires Distinct(users)
    ensures LedgerSum(ledger + RefundRows(round, stake, users), q) ==
            LedgerSum(ledger, q) + RefundSum(round, stake, users, q)
  {
    hide LedgerSum;
    if users == [] {
      assert ledger + RefundRows(round, stake, users) == ledger;
    } else {
      var init, user := users[..|users| - 1], users[|users| - 1];
      assert users == init + [user];
      RefundLedger(ledger, round, stake, init, q);
      assert user !in init;
      var row := LedgerRow(Some(user), Some(round), RefundRow, stake.asset, stake.amount);
      assert ledger + RefundRows(round, stake, users) == (ledger + RefundRows(round, stake, init)) + [row];
      LedgerAppend(ledger + RefundRows(round, stake, init), row, q);
    }
  }

  // Claims on escrow.

  /** Changing one round moves the total of a player's claims by the change of that round's claim. */
  lemma ClaimsUpdate(t: Tables, r: Tables, id: RoundId, user: UserId, asset: Asset)
    requires Complete(t) && Complete(r) && id in r.rounds
    requires r.rounds == t.rounds[id := r.rounds[id]] && r.entries == t.entries[id := r.entries[id]]
    ensures Total(Claims(r, user, asset)) == Total(Claims(t, user, asset))
            + ClaimOf(r.rounds[id], r.entries[id], user, asset)
            - (if id in t.rounds then ClaimOf(t.rounds[id], t.entries[id], user, asset) else 0)
  {
    var c := ClaimOf(r.rounds[id], r.entries[id], user, asset);
    TotalUpdate(Claims(t, user, asset), id, c);
    assert Claims(r, user, asset) == Claims(t, user, asset)[id := c];
  }

  /** A seated player of an unfinished staked round has the stake in escrow, so the balance row exists. */
  lemma SeatIsEscrowed(t: Tables, id: RoundId, user: UserId, stake: Stake)
    requires Sound(t) && id in t.rounds && Unfinished(t.rounds[id]) && StakeOf(t.rounds[id]) == Some(stake)
    requires user in Players(t.entries[id])
    ensures BalanceOf(t.balances, user, stake.asset).escrowed >= stake.amount
    ensures stake.amount > 0 ==> (user, stake.asset) in t.balances
  {
    var claims := Claims(t, user, stake.asset);
    TotalRemove(claims, id);
    var rest := claims - {id};
    assert forall r :: r in rest ==> r in claims && rest[r] == claims[r] >= 0;
    TotalNonNegative(rest);
    assert claims[id] == stake.amount;
  }

  // Each transaction keeps the invariants.

  lemma EmptySound()
    ensures Sound(EmptyTables)
  {
  }

  /** Only round `id` differs between the two sets of tables, and its terms are the same. */
  ghost predicate OnlyRound(t: Tables, r: Tables, id: RoundId) {
    && Complete(t) && Complete(r) && id in r.rounds
    && r.rounds == t.rounds[id := r.rounds[id]] && r.entries == t.entries[id := r.entries[id]]
    && (id in t.rounds ==> StakeOf(r.rounds[id]) == StakeOf(t.rounds[id])
                           && r.rounds[id].entryAmount == t.rounds[id].entryAmount)
  }

  // A change of one round together with money: every player gains `gain` of the asset and locks `lock` of it,
  // and the house takes `rake`.

  ghost predicate BalancesChange(b: Balances, c: Balances, asset: Asset, gain: UserId -> int, lock: UserId -> int) {
    forall u, a :: BalanceOf(c, u, a) ==
      var x := BalanceOf(b, u, a);
      if a == asset then Balance(x.available + gain(u), x.escrowed + lock(u)) else x
  }

  ghost predicate LedgerChange(l: seq<LedgerRow>, m: seq<LedgerRow>, id: RoundId, asset: Asset, gain: UserId -> int,
                               cleared: int, rake: int)
  {
    forall q :: LedgerSum(m, q) == LedgerSum(l, q) +
      match q
      case OfUser(u, a) => if a == asset then gain(u) else 0
      case OfRound(x) => if x == id then cleared else 0
      case OfHouse(a) => if a == asset then rake else 0
  }

  ghost predicate ClaimsChange(t: Tables, r: Tables, id: RoundId, asset: Asset, lock: UserId -> int)
    requires id in t.rounds && id in r.rounds && id in t.entries && id in r.entries
  {
    forall u, a :: ClaimOf(r.rounds[id], r.entries[id], u, a) ==
                   ClaimOf(t.rounds[id], t.entries[id], u, a) + (if a == asset then lock(u) else 0)
  }

  ghost predicate HoldingsChange(b: Balances, c: Balances, asset: Asset, rake: int) {
    forall a :: Total(Holdings(c, a)) == Total(Holdings(b, a)) - (if a == asset then rake else 0)
  }

  /** Whatever the change is, it is sound when the ledger, the claims and the holdings all move with the balances. */
  lemma ChangeSound(t: Tables, r: Tables, id: RoundId, asset: Asset, gain: UserId -> int, lock: UserId -> int, rake: int)
    requires Sound(t) && OnlyRound(t, r, id) && id in t.rounds && r.deposits == t.deposits
    requires SeatsDistinct(r) && NoDebt(r.balances) && SettledOnce(r)
    requires BalancesChange(t.balances, r.balances, asset, gain, lock)
    requires LedgerChange(t.ledger, r.ledger, id, asset, gain, Outstanding(r, id) - Outstanding(t, id), rake)
    requires ClaimsChange(t, r, id, asset, lock)
    requires HoldingsChange(t.balances, r.balances, asset, rake)
    ensures Sound(r)
  {
    hide Total;
    assert AvailableIsLedger(r);
    assert EscrowIsSeats(r) by {
      forall u, a ensures BalanceOf(r.balances, u, a).escrowed == Total(Claims(r, u, a)) {
        ClaimsUpdate(t, r, id, u, a);
      }
    }
    assert RoundsClear(r) by {
      forall x ensures LedgerSum(r.ledger, OfRound(x)) == Outstanding(r, x) {
        assert x != id ==> Outstanding(r, x) == Outstanding(t, x);
      }
    }
    assert Conserved(r);
  }

  /** A change of statuses, ticks or moves that leaves every claim, seat and finish as it was. */
  lemma NoMoneyMoved(t: Tables, r: Tables, id: RoundId)
    requires Sound(t) && OnlyRound(t, r, id)
    requires r == t.(rounds := r.rounds, entries := r.entries, moves := r.moves)
    requires Players(r.entries[id]) == if id in t.rounds then Players(t.entries[id]) else []
    requires id in t.rounds ==> (Unfinished(r.rounds[id]) <==> Unfinished(t.rounds[id])) || Seat(t.rounds[id]) == 0
    requires id in t.settlements ==> !Unfinished(r.rounds[id])
    requires id !in t.rounds ==> Unfinished(r.rounds[id])
    ensures Sound(r)
  {
    hide Total;
    assert |r.entries[id]| == |Players(r.entries[id])|;
    if id in t.rounds {
      assert |t.entries[id]| == |Players(t.entries[id])|;
    }
    assert SeatsDistinct(r);
    assert SettledOnce(r);
    assert EscrowIsSeats(r) by {
      forall u, a ensures BalanceOf(r.balances, u, a).escrowed == Total(Claims(r, u, a)) {
        ClaimsUpdate(t, r, id, u, a);
      }
    }
    assert RoundsClear(r) by {
      forall x ensures Outstanding(r, x) == Outstanding(t, x) {
        TimesIsProduct(0, |r.entries[id]|);
      }
    }
  }

  ghost function Only(user: UserId, x: int): UserId -> int {
    (u: UserId) => if u == user then x else 0
  }

  ghost function Each(users: seq<UserId>, x: int): UserId -> int {
    (u: UserId) => if u in users then x else 0
  }

  lemma NoDebtAfter(b: Balances, c: Balances, asset: Asset, gain: UserId -> int, lock: UserId -> int)
    requires NoDebt(b) && BalancesChange(b, c, asset, gain, lock)
    requires forall u :: BalanceOf(b, u, asset).available + gain(u) >= 0 && BalanceOf(b, u, asset).escrowed + lock(u) >= 0
    ensures NoDebt(c)
  {
    forall k | k in c ensures c[k].available >= 0 && c[k].escrowed >= 0 {
      assert c[k] == BalanceOf(c, k.0, k.1);
      assert BalanceOf(b, k.0, k.1).available >= 0 && BalanceOf(b, k.0, k.1).escrowed >= 0;
    }
  }

  lemma JoinSound(t: Tables, id: RoundId, user: UserId, admitted: bool, now: int)
    requires Sound(t)
    ensures Sound(Join(t, id, user, admitted, now).0)
  {
    hide Total, AvailableIsLedger, EscrowIsSeats, RoundsClear, Conserved, NoDebt;
    var r := Join(t, id, user, admitted, now).0;
    if r != t {
      var round := t.rounds[id];
      SeatAdded(t.entries[id], user);
      if Seat(round) > 0 {
        StakedJoinSound(t, r, id, user, StakeOf(round).value);
      } else {
        FreeJoinSound(t, r, id, user);
      }
    }
  }

  lemma SeatAdded(entries: seq<Entry>, user: UserId)
    requires user !in Players(entries)
    ensures Players(entries + [Entry(user, Alive, None)]) == Players(entries) + [user]
    ensures Distinct(Players(entries)) ==> Distinct(Players(entries) + [user])
  {
  }

  lemma FreeJoinSound(t: Tables, r: Tables, id: RoundId, user: UserId)
    requires Sound(t) && id in t.rounds && t.rounds[id].status == Open && Seat(t.rounds[id]) == 0
    requires r == t.(entries := t.entries[id := t.entries[id] + [Entry(user, Alive, None)]])
    requires Distinct(Players(r.entries[id]))
    ensures Sound(r)
  {
    hide Total;
    assert EscrowIsSeats(r) by {
      forall u, a ensures BalanceOf(r.balances, u, a).escrowed == Total(Claims(r, u, a)) {
        ClaimsUpdate(t, r, id, u, a);
      }
    }
    assert RoundsClear(r) by {
      forall x ensures Outstanding(r, x) == Outstanding(t, x) {
        TimesIsProduct(0, |r.entries[id]|);
        TimesIsProduct(0, |t.entries[id]|);
      }
    }
  }

  lemma StakedJoinSound(t: Tables, r: Tables, id: RoundId, user: UserId, stake: Stake)
    requires Sound(t) && id in t.rounds && t.rounds[id].status == Open && StakeOf(t.rounds[id]) == Some(stake)
    requires stake.amount > 0 && BalanceOf(t.balances, user, stake.asset).available >= stake.amount
    requires user !in Players(t.entries[id])
    requires r == t.(entries := t.entries[id := t.entries[id] + [Entry(user, Alive, None)]],
                     balances := Shifted(t.balances, user, stake.asset, -(stake.amount as int), stake.amount),
                     ledger := t.ledger + [LedgerRow(Some(user), Some(id), StakeRow, stake.asset, -(stake.amount as int))])
    requires Players(r.entries[id]) == Players(t.entries[id]) + [user] && Distinct(Players(r.entries[id]))
    ensures Sound(r)
  {
    hide Total, BalancesChange, LedgerChange, HoldingsChange, LedgerSum, ShiftEach, RefundRows,
         AvailableIsLedger, EscrowIsSeats, RoundsClear, Conserved, NoDebt;
    var asset, amount := stake.asset, stake.amount as int;
    StakeBalances(t.balances, user, asset, amount);
    StakeLedger(t.ledger, id, user, asset, amount);
    assert ClaimsChange(t, r, id, asset, Only(user, amount));
    ChangeSound(t, r, id, asset, Only(user, -amount), Only(user, amount), 0);
  }

  lemma StakeBalances(b: Balances, user: UserId, asset: Asset, amount: int)
    requires NoDebt(b) && BalanceOf(b, user, asset).available >= amount > 0
    ensures var c := Shifted(b, user, asset, -amount, amount);
            && BalancesChange(b, c, asset, Only(user, -amount), Only(user, amount))
            && HoldingsChange(b, c, asset, 0) && NoDebt(c)
  {
    hide Total;
    var c := Shifted(b, user, asset, -amount, amount);
    assert BalancesChange(b, c, asset, Only(user, -amount), Only(user, amount)) && HoldingsChange(b, c, asset, 0) by {
      ShiftedEffect(b, user, asset, -amount, amount);
    }
    NoDebtAfter(b, c, asset, Only(user, -amount), Only(user, amount));
  }

  lemma StakeLedger(ledger: seq<LedgerRow>, id: RoundId, user: UserId, asset: Asset, amount: int)
    ensures LedgerChange(ledger, ledger + [LedgerRow(Some(user), Some(id), StakeRow, asset, -amount)], id, asset,
                         Only(user, -amount), -amount, 0)
  {
    var row := LedgerRow(Some(user), Some(id), StakeRow, asset, -amount);
    forall q ensures LedgerSum(ledger + [row], q) == LedgerSum(ledger, q) + (if Matches(q, row) then -amount else 0) {
      LedgerAppend(ledger, row, q);
    }
  }

  lemma SeatsHaveRows(t: Tables, id: RoundId, stake: Stake)
    requires Sound(t) && id in t.rounds && Unfinished(t.rounds[id]) && StakeOf(t.rounds[id]) == Some(stake) && stake.amount > 0
    ensures forall u :: u in Players(t.entries[id]) ==>
              (u, stake.asset) in t.balances && BalanceOf(t.balances, u, stake.asset).escrowed >= stake.amount
  {
    hide Total;
    forall u | u in Players(t.entries[id])
      ensures (u, stake.asset) in t.balances && BalanceOf(t.balances, u, stake.asset).escrowed >= stake.amount
    {
      SeatIsEscrowed(t, id, u, stake);
    }
  }

  /** Refunding an unfinished round as it is aborted. */
  lemma RefundSound(t: Tables, r: Tables, id: RoundId, stake: Stake)
    requires Sound(t) && id in t.rounds && Unfinished(t.rounds[id]) && StakeOf(t.rounds[id]) == Some(stake)
    requires OnlyRound(t, r, id) && r == t.(rounds := r.rounds, entries := r.entries)
    requires Players(r.entries[id]) == Players(t.entries[id])
    requires r.rounds[id] == t.rounds[id].(status := Aborted)
    ensures Sound(RefundAll(r, id, stake))
  {
    hide Total, Times, BalancesChange, LedgerChange, HoldingsChange, LedgerSum, ShiftEach, RefundRows,
         AvailableIsLedger, EscrowIsSeats, RoundsClear, Conserved, NoDebt;
    if stake.amount == 0 {
      NoMoneyMoved(t, r, id);
    } else {
      var users, asset, amount := Players(t.entries[id]), stake.asset, stake.amount as int;
      var f := RefundAll(r, id, stake);
      assert OnlyRound(t, f, id);
      assert BalancesChange(t.balances, f.balances, asset, Each(users, amount), Each(users, -amount)) &&
             HoldingsChange(t.balances, f.balances, asset, 0) && NoDebt(f.balances) by {
        SeatsHaveRows(t, id, stake);
        RefundBalances(t.balances, users, asset, amount);
      }
      RefundLedgerChange(t.ledger, id, stake, users);
      FinishedClaims(t, f, id, stake);
      ChangeSound(t, f, id, asset, Each(users, amount), Each(users, -amount), 0);
    }
  }

  lemma RefundBalances(b: Balances, users: seq<UserId>, asset: Asset, amount: int)
    requires NoDebt(b) && Distinct(users) && amount > 0
    requires forall u :: u in users ==> (u, asset) in b && BalanceOf(b, u, asset).escrowed >= amount
    ensures var c := ShiftEach(b, users, asset, amount, -amount);
            && BalancesChange(b, c, asset, Each(users, amount), Each(users, -amount))
            && HoldingsChange(b, c, asset, 0) && NoDebt(c)
  {
    hide Total;
    ShiftEachEffect(b, users, asset, amount, -amount);
    TimesIsProduct(0, |users|);
    var c := ShiftEach(b, users, asset, amount, -amount);
    assert BalancesChange(b, c, asset, Each(users, amount), Each(users, -amount));
    NoDebtAfter(b, c, asset, Each(users, amount), Each(users, -amount));
  }

  lemma {:induction false} RefundLedgerChange(ledger: seq<LedgerRow>, id: RoundId, stake: Stake, users: seq<UserId>)
    requires Distinct(users)
    ensures LedgerChange(ledger, ledger + RefundRows(id, stake, users), id, stake.asset,
                         Each(users, stake.amount), Times(stake.amount, |users|), 0)
  {
    forall q
      ensures LedgerSum(ledger + RefundRows(id, stake, users), q) == LedgerSum(ledger, q) + RefundSum(id, stake, users, q)
    {
      RefundLedger(ledger, id, stake, users, q);
    }
  }

  lemma FinishedClaims(t: Tables, f: Tables, id: RoundId, stake: Stake)
    requires Sound(t) && id in t.rounds && Unfinished(t.rounds[id]) && StakeOf(t.rounds[id]) == Some(stake)
    requires OnlyRound(t, f, id) && Players(f.entries[id]) == Players(t.entries[id])
    requires !Unfinished(f.rounds[id]) && stake.amount > 0
    requires f.settlements.Keys == t.settlements.Keys + {id}
    ensures ClaimsChange(t, f, id, stake.asset, Each(Players(t.entries[id]), -(stake.amount as int)))
    ensures SeatsDistinct(f) && SettledOnce(f)
    ensures |f.entries[id]| == |Players(t.entries[id])|
    ensures Outstanding(f, id) - Outstanding(t, id) == Times(stake.amount, |Players(t.entries[id])|)
  {
    hide Total;
    assert |f.entries[id]| == |Players(f.entries[id])|;
    assert |t.entries[id]| == |Players(t.entries[id])|;
  }

  /** Paying the pot of an unfinished round to its winner as it is settled. */
  lemma PayOutSound(t: Tables, r: Tables, id: RoundId, winner: UserId, stake: Stake)
    requires Sound(t) && id in t.rounds && Unfinished(t.rounds[id]) && StakeOf(t.rounds[id]) == Some(stake)
    requires OnlyRound(t, r, id) && r == t.(rounds := r.rounds, entries := r.entries)
    requires Players(r.entries[id]) == Players(t.entries[id])
    requires r.rounds[id] == t.rounds[id].(status := Settled, winner := Some(winner))
    requires PayOut(r, id, winner, stake).Some?
    ensures Sound(PayOut(r, id, winner, stake).value)
  {
    hide Total, AvailableIsLedger, EscrowIsSeats, RoundsClear, Conserved, NoDebt;
    if stake.amount == 0 {
      NoMoneyMoved(t, r, id);
    } else {
      var f := PayOut(r, id, winner, stake).value;
      var s := f.settlements[id];
      TimesIsProduct(stake.amount, |r.entries[id]|);
      PaidSound(t, f, id, winner, stake, s.paidOut, s.rake);
    }
  }

  lemma PaidSound(t: Tables, f: Tables, id: RoundId, winner: UserId, stake: Stake, payout: int, rake: int)
    requires Sound(t) && id in t.rounds && Unfinished(t.rounds[id]) && StakeOf(t.rounds[id]) == Some(stake)
    requires OnlyRound(t, f, id) && Players(f.entries[id]) == Players(t.entries[id]) && stake.amount > 0
    requires f.rounds[id] == t.rounds[id].(status := Settled, winner := Some(winner))
    requires payout >= 0 && payout + rake == Times(stake.amount, |f.entries[id]|)
    requires f.settlements.Keys == t.settlements.Keys + {id} && f.deposits == t.deposits
    requires f.balances == Deposited(ShiftEach(t.balances, Players(t.entries[id]), stake.asset, 0, -(stake.amount as int)),
                                     winner, stake.asset, payout)
    requires f.ledger == t.ledger + PayOutRows(id, winner, stake.asset, payout, rake)
    ensures Sound(f)
  {
    hide Total, Times, BalancesChange, LedgerChange, HoldingsChange, LedgerSum, ShiftEach, RefundRows,
         AvailableIsLedger, EscrowIsSeats, RoundsClear, Conserved, NoDebt;
    var users, asset, amount := Players(t.entries[id]), stake.asset, stake.amount as int;
    FinishedClaims(t, f, id, stake);
    assert BalancesChange(t.balances, f.balances, asset, Only(winner, payout), Each(users, -amount)) &&
           HoldingsChange(t.balances, f.balances, asset, rake) && NoDebt(f.balances) by {
      SeatsHaveRows(t, id, stake);
      PayOutBalances(t.balances, users, asset, amount, winner, payout, rake);
    }
    PayOutLedger(t.ledger, id, winner, asset, payout, rake);
    ChangeSound(t, f, id, asset, Only(winner, payout), Each(users, -amount), rake);
  }

  lemma PayOutBalances(b: Balances, users: seq<UserId>, asset: Asset, amount: int, winner: UserId, payout: int, rake: int)
    requires NoDebt(b) && Distinct(users) && amount > 0 && payout >= 0 && payout + rake == Times(amount, |users|)
    requires forall u :: u in users ==> (u, asset) in b && BalanceOf(b, u, asset).escrowed >= amount
    ensures var c := Deposited(ShiftEach(b, users, asset, 0, -amount), winner, asset, payout);
            && BalancesChange(b, c, asset, Only(winner, payout), Each(users, -amount))
            && HoldingsChange(b, c, asset, rake) && NoDebt(c)
  {
    hide Total;
    ShiftEachEffect(b, users, asset, 0, -amount);
    TimesNegates(amount, |users|);
    var released := ShiftEach(b, users, asset, 0, -amount);
    DepositedEffect(released, winner, asset, payout);
    var c := Deposited(released, winner, asset, payout);
    assert BalancesChange(b, c, asset, Only(winner, payout), Each(users, -amount));
    NoDebtAfter(b, c, asset, Only(winner, payout), Each(users, -amount));
  }

  lemma {:induction false} TimesNegates(x: int, n: nat)
    ensures Times(-x, n) == -Times(x, n)
  {
    if n > 0 {
      TimesNegates(x, n - 1);
    }
  }

  lemma PayOutLedger(ledger: seq<LedgerRow>, id: RoundId, winner: UserId, asset: Asset, payout: int, rake: int)
    ensures LedgerChange(ledger, ledger + PayOutRows(id, winner, asset, payout, rake), id, asset,
                         Only(winner, payout), payout + rake, rake)
  {
    var paid := LedgerRow(Some(winner), Some(id), PayoutRow, asset, payout);
    var raked := LedgerRow(None, Some(id), RakeRow, asset, rake);
    var after := ledger + PayOutRows(id, winner, asset, payout, rake);
    assert after == if rake == 0 then ledger + [paid] else ledger + [paid] + [raked];
    forall q ensures LedgerSum(after, q) == LedgerSum(ledger, q) + (if Matches(q, paid) then payout else 0)
                                                                 + (if Matches(q, raked) then rake else 0) {
      LedgerAppend(ledger, paid, q);
      LedgerAppend(ledger + [paid], raked, q);
    }
  }

  lemma AdvanceSound(t: Tables, id: RoundId, now: int)
    requires Sound(t)
    ensures Sound(Advance(t, id, now).0)
  {
    hide Total, AvailableIsLedger, EscrowIsSeats, RoundsClear, Conserved, NoDebt;
    if id in t.rounds && Unfinished(t.rounds[id]) {
      var round, entries := t.rounds[id], t.entries[id];
      var r := Advance(t, id, now).0;
      if round.status == Open {
        StartSound(t, id, now);
      } else if !Early(round.tickDeadline, now) {
        ResolveSound(t, id, now);
      }
    }
  }

  lemma StartSound(t: Tables, id: RoundId, now: int)
    requires Sound(t) && id in t.rounds && t.rounds[id].status == Open
    ensures Sound(StartOrAbort(t, id, now))
  {
    hide AvailableIsLedger, EscrowIsSeats, RoundsClear, Conserved, NoDebt, SeatsDistinct, RefundAll, PayOut, Resolve,
      MovesAt, AliveUsers;
    var round, entries := t.rounds[id], t.entries[id];
    if |entries| < round.minPlayers {
      assert Players(MarkRefunded(entries)) == Players(entries);
      var aborted := WithRound(t, id, round.(status := Aborted), MarkRefunded(entries));
      match StakeOf(round)
      case None => NoMoneyMoved(t, aborted, id);
      case Some(stake) => RefundSound(t, aborted, id, stake);
    } else {
      NoMoneyMoved(t, StartOrAbort(t, id, now), id);
    }
  }

  lemma ResolveSound(t: Tables, id: RoundId, now: int)
    requires Sound(t) && id in t.rounds && t.rounds[id].status == Running
    ensures Sound(ResolveCurrentTick(t, id, now).0)
  {
    hide AvailableIsLedger, EscrowIsSeats, RoundsClear, Conserved, NoDebt, SettledOnce, SeatsDistinct, RefundAll, PayOut,
         Resolve, MovesAt, AliveUsers;
    var outcome := TickOutcomeOf(t, id);
    if |outcome.survivors| == 0 {
      SilencedSound(t, id, now);
    } else if |outcome.survivors| == 1 {
      WonSound(t, id, now);
    } else {
      ContinuedSound(t, id, now);
    }
  }

  lemma SilencedSound(t: Tables, id: RoundId, now: int)
    requires Sound(t) && id in t.rounds && t.rounds[id].status == Running
    requires |TickOutcomeOf(t, id).survivors| == 0
    ensures Sound(ResolveCurrentTick(t, id, now).0)
  {
    hide AvailableIsLedger, EscrowIsSeats, RoundsClear, Conserved, NoDebt, SeatsDistinct, RefundAll, PayOut,
         Resolve, MovesAt, AliveUsers;
    var round, marked := t.rounds[id], MarkedEntries(t, id);
    assert Players(marked) == Players(t.entries[id]);
    var aborted := WithRound(t, id, round.(status := Aborted), marked);
    match StakeOf(round)
    case None => NoMoneyMoved(t, aborted, id);
    case Some(stake) => RefundSound(t, aborted, id, stake);
  }

  lemma WonSound(t: Tables, id: RoundId, now: int)
    requires Sound(t) && id in t.rounds && t.rounds[id].status == Running
    requires |TickOutcomeOf(t, id).survivors| == 1
    ensures Sound(ResolveCurrentTick(t, id, now).0)
  {
    hide AvailableIsLedger, EscrowIsSeats, RoundsClear, Conserved, NoDebt, SeatsDistinct, RefundAll, PayOut,
         Resolve, MovesAt, AliveUsers;
    var round, winner := t.rounds[id], TickOutcomeOf(t, id).survivors[0];
    var won := WithRound(t, id, round.(status := Settled, winner := Some(winner)), MarkWon(MarkedEntries(t, id), winner));
    assert Players(won.entries[id]) == Players(t.entries[id]);
    match StakeOf(round)
    case None => NoMoneyMoved(t, won, id);
    case Some(stake) =>
      if PayOut(won, id, winner, stake).Some? {
        PayOutSound(t, won, id, winner, stake);
      }
  }

  lemma ContinuedSound(t: Tables, id: RoundId, now: int)
    requires Sound(t) && id in t.rounds && t.rounds[id].status == Running
    requires |TickOutcomeOf(t, id).survivors| > 1
    ensures Sound(ResolveCurrentTick(t, id, now).0)
  {
    hide AvailableIsLedger, EscrowIsSeats, RoundsClear, Conserved, NoDebt, SeatsDistinct, RefundAll, PayOut,
         Resolve, MovesAt, AliveUsers;
    var r := ResolveCurrentTick(t, id, now).0;
    assert Players(r.entries[id]) == Players(t.entries[id]);
    NoMoneyMoved(t, r, id);
  }

  lemma CommitSound(t: Tables, id: RoundId, user: UserId, choice: Choice, now: int)
    requires Sound(t)
    ensures Sound(CommitMove(t, id, user, choice, now).0)
  {
    hide Total, AvailableIsLedger, EscrowIsSeats, RoundsClear, Conserved, NoDebt;
    var r := CommitMove(t, id, user, choice, now).0;
    if r != t {
      NoMoneyMoved(t, r, id);
    }
  }

  lemma OpenSound(t: Tables, id: RoundId, terms: Round, joinWindow: nat, now: int)
    requires Sound(t)
    ensures Sound(EnsureOpenRound(t, id, terms, joinWindow, now).0)
  {
    hide Total, AvailableIsLedger, EscrowIsSeats, RoundsClear, Conserved, NoDebt;
    var r := EnsureOpenRound(t, id, terms, joinWindow, now).0;
    if id in r.rounds && id !in t.rounds {
      NoMoneyMoved(t, r, id);
    }
  }

  lemma DepositSound(t: Tables, signature: Signature, baseUnits: nat, owner: Option<UserId>, feeBps: FeeBps)
    requires Sound(t)
    ensures Sound(RecordDeposit(t, signature, baseUnits, owner, feeBps))
  {
    hide Total;
    if signature !in t.deposits {
      var r := RecordDeposit(t, signature, baseUnits, owner, feeBps);
      var row := r.deposits[signature];
      CreditedUpdate(t.deposits, signature, row);
      if owner.Some? {
        CreditSound(t, r, signature, owner.value, row);
      } else {
        SeatsUntouched(t, r);
      }
    }
  }

  lemma SeatsUntouched(t: Tables, r: Tables)
    requires Complete(t) && Complete(r) && r.rounds == t.rounds && r.entries == t.entries
    ensures forall u, a :: Claims(r, u, a) == Claims(t, u, a)
    ensures forall x :: Outstanding(r, x) == Outstanding(t, x)
  {
    hide Total;
  }

  lemma CreditSound(t: Tables, r: Tables, signature: Signature, owner: UserId, row: Deposit)
    requires Sound(t) && signature !in t.deposits && row.user == Some(owner)
    requires r == Credit(t.(deposits := t.deposits[signature := row]), owner, USDC, row.net)
    ensures Sound(r)
  {
    hide Total;
    SeatsUntouched(t, r);
    CreditedUpdate(t.deposits, signature, row);
    CreditLedger(t.ledger, owner, row.net);
    CreditBalances(t.balances, owner, row.net);
    assert AvailableIsLedger(r);
    assert EscrowIsSeats(r);
    assert RoundsClear(r);
    assert Conserved(r);
  }

  lemma {:induction false} CreditLedger(ledger: seq<LedgerRow>, owner: UserId, net: int)
    ensures forall q :: LedgerSum(ledger + [LedgerRow(Some(owner), None, DepositRow, USDC, net)], q)
                     == LedgerSum(ledger, q) + (if q == OfUser(owner, USDC) then net else 0)
  {
    var row := LedgerRow(Some(owner), None, DepositRow, USDC, net);
    forall q ensures LedgerSum(ledger + [row], q) == LedgerSum(ledger, q) + (if q == OfUser(owner, USDC) then net else 0) {
      LedgerAppend(ledger, row, q);
    }
  }

  lemma CreditBalances(b: Balances, owner: UserId, net: nat)
    requires NoDebt(b)
    ensures var c := Deposited(b, owner, USDC, net);
            && BalancesChange(b, c, USDC, Only(owner, net), Only(owner, 0))
            && HoldingsChange(b, c, USDC, -(net as int)) && NoDebt(c)
  {
    hide Total;
    DepositedEffect(b, owner, USDC, net);
    NoDebtAfter(b, Deposited(b, owner, USDC, net), USDC, Only(owner, net), Only(owner, 0));
  }

  lemma CreditedUpdate(deposits: map<Signature, Deposit>, signature: Signature, row: Deposit)
    requires signature !in deposits
    ensures forall a :: Total(Credited(deposits[signature := row], a)) ==
              Total(Credited(deposits, a)) + (if a == USDC && row.user.Some? then row.net else 0)
  {
    forall a ensures Total(Credited(deposits[signature := row], a)) ==
                     Total(Credited(deposits, a)) + (if a == USDC && row.user.Some? then row.net else 0) {
      var v := if a == USDC && row.user.Some? then row.net else 0;
      TotalUpdate(Credited(deposits, a), signature, v);
      assert Credited(deposits[signature := row], a) == Credited(deposits, a)[signature := v];
    }
  }

  lemma StepSound(t: Tables, e: Timed)
    requires Sound(t)
    ensures Sound(Step(t, e))
  {
    hide Total, AvailableIsLedger, EscrowIsSeats, RoundsClear, Conserved, NoDebt;
    match e.event
    case OpensRound(id, terms, joinWindow) => OpenSound(t, id, terms, joinWindow, e.now);
    case Joins(id, user, admitted) => JoinSound(t, id, user, admitted, e.now);
    case Commits(id, user, choice) => CommitSound(t, id, user, choice, e.now);
    case Advances(id) => AdvanceSound(t, id, e.now);
    case Deposits(signature, baseUnits, owner, feeBps) => DepositSound(t, signature, baseUnits, owner, feeBps);
  }

  /** Every run of transactions, in any order and at any clock readings, keeps every money invariant. */
  lemma {:induction false} RunSound(events: seq<Timed>)
    ensures Sound(Run(events))
  {
    hide Total, AvailableIsLedger, EscrowIsSeats, RoundsClear, Conserved, NoDebt;
    if events == [] {
      EmptySound();
    } else {
      RunSound(events[..|events| - 1]);
      StepSound(Run(events[..|events| - 1]), events[|events| - 1]);
    }
  }
}
