/**
 * The arcade tables and what each transaction does to them.
 *
 * One function per transaction: it either commits a new set of tables or refuses and leaves them unchanged.
 * Money is counted in units of 10^-18, as the decimal helpers do. The database clock is an argument.
 */
module ArcadeTables {
  import opened Prelude
  import opened LastMan
  import opened Decimals

  type RoundId = Id
  type Signature = Id

  datatype Asset = Asset(symbol: Id, network: Id)
  datatype RoundStatus = Open | Running | Settled | Aborted
  datatype Round = Round(
    game: Id, status: RoundStatus, currentTick: nat, tickSeconds: nat, tickDeadline: Option<int>,
    joinCloses: int, minPlayers: nat, maxPlayers: nat, winner: Option<UserId>,
    entryAmount: nat, entryAsset: Option<Id>, entryNetwork: Option<Id>, rakeBps: nat)
  datatype EntryStatus = Alive | Eliminated | Won | Refunded
  datatype Entry = Entry(user: UserId, status: EntryStatus, eliminatedTick: Option<nat>)
  datatype MoveRow = MoveRow(tick: nat, user: UserId, choice: Choice)
  datatype Balance = Balance(available: int, escrowed: int)
  datatype LedgerKind = DepositRow | StakeRow | PayoutRow | RefundRow | RakeRow
  datatype LedgerRow = LedgerRow(user: Option<UserId>, round: Option<RoundId>, kind: LedgerKind, asset: Asset, amount: int)
  datatype Settlement = Settlement(pot: int, rake: int, paidOut: int)
  datatype Deposit = Deposit(gross: nat, fee: nat, net: nat, user: Option<UserId>)

  datatype Tables = Tables(
    rounds: map<RoundId, Round>,
    entries: map<RoundId, seq<Entry>>,
    moves: map<RoundId, seq<MoveRow>>,
    balances: map<(UserId, Asset), Balance>,
    ledger: seq<LedgerRow>,
    settlements: map<RoundId, Settlement>,
    deposits: map<Signature, Deposit>)

  datatype Reply =
    | Ok
    | RoundNotFound
    | RoundClosed
    | RoundFull
    | NotAdmitted
    | InsufficientBalance
    | RoundNotRunning
    | TickClosed
    | NotInRound
    | PlayerEliminated
    | AlreadyCommitted
    | ConstraintViolated

  const EmptyTables := Tables(map[], map[], map[], map[], [], map[], map[])

  // The one asset deposits are credited in: USDC on the main Solana network.
  const USDC_SYMBOL: Id := 0
  const SOLANA_MAINNET: Id := 0
  const USDC := Asset(USDC_SYMBOL, SOLANA_MAINNET)

  /** The deposit fee the environment schema admits. */
  type FeeBps = bps: nat | bps <= 100

  // A round's stake terms, fixed when it opened.

  datatype Stake = Stake(asset: Asset, amount: nat, rakeBps: nat)

  function StakeOf(round: Round): Option<Stake> {
    match (round.entryAsset, round.entryNetwork)
    case (Some(symbol), Some(network)) => Some(Stake(Asset(symbol, network), round.entryAmount, round.rakeBps))
    case _ => None
  }

  function Players(entries: seq<Entry>): seq<UserId> {
    seq(|entries|, i requires 0 <= i < |entries| => entries[i].user)
  }

  function AliveUsers(entries: seq<Entry>): seq<UserId> {
    if entries == [] then []
    else (if entries[0].status == Alive then [entries[0].user] else []) + AliveUsers(entries[1..])
  }

  function MovesAt(rows: seq<MoveRow>, tick: nat): seq<Move> {
    if rows == [] then []
    else
      var last := rows[|rows| - 1];
      MovesAt(rows[..|rows| - 1], tick) + (if last.tick == tick then [Move(last.user, last.choice)] else [])
  }

  function MarkEliminated(entries: seq<Entry>, users: seq<UserId>, tick: nat): seq<Entry> {
    seq(|entries|, i requires 0 <= i < |entries| =>
      if entries[i].user in users then entries[i].(status := Eliminated, eliminatedTick := Some(tick)) else entries[i])
  }

  function MarkWon(entries: seq<Entry>, winner: UserId): seq<Entry> {
    seq(|entries|, i requires 0 <= i < |entries| =>
      if entries[i].user == winner then entries[i].(status := Won) else entries[i])
  }

  function MarkRefunded(entries: seq<Entry>): seq<Entry> {
    seq(|entries|, i requires 0 <= i < |entries| => entries[i].(status := Refunded))
  }

  // Money movements. A ledger row accompanies every change of an available balance.

  function BalanceOf(balances: map<(UserId, Asset), Balance>, user: UserId, asset: Asset): Balance {
    if (user, asset) in balances then balances[(user, asset)] else Balance(0, 0)
  }

  /** An insert that adds to the row when it already exists. */
  function Deposited(balances: map<(UserId, Asset), Balance>, user: UserId, asset: Asset, amount: int)
    : map<(UserId, Asset), Balance>
  {
    var b := BalanceOf(balances, user, asset);
    balances[(user, asset) := b.(available := b.available + amount)]
  }

  /** An update: a missing row is left missing. */
  function Shifted(balances: map<(UserId, Asset), Balance>, user: UserId, asset: Asset, available: int, escrowed: int)
    : map<(UserId, Asset), Balance>
  {
    if (user, asset) !in balances then balances else
      var b := balances[(user, asset)];
      balances[(user, asset) := Balance(b.available + available, b.escrowed + escrowed)]
  }

  function Record(t: Tables, row: LedgerRow): Tables {
    t.(ledger := t.ledger + [row])
  }

  function Credit(t: Tables, user: UserId, asset: Asset, amount: int): Tables {
    Record(t.(balances := Deposited(t.balances, user, asset, amount)),
           LedgerRow(Some(user), None, DepositRow, asset, amount))
  }

  function Escrow(t: Tables, user: UserId, round: RoundId, asset: Asset, amount: nat): Option<Tables> {
    if amount == 0 then Some(t)
    else if BalanceOf(t.balances, user, asset).available < amount then None
    else Some(Record(t.(balances := Shifted(t.balances, user, asset, -(amount as int), amount)),
                     LedgerRow(Some(user), Some(round), StakeRow, asset, -(amount as int))))
  }

  function ShiftEach(balances: map<(UserId, Asset), Balance>, users: seq<UserId>, asset: Asset, available: int,
                     escrowed: int)
    : map<(UserId, Asset), Balance>
  {
    if users == [] then balances else
      Shifted(ShiftEach(balances, users[..|users| - 1], asset, available, escrowed),
              users[|users| - 1], asset, available, escrowed)
  }

  function RefundRows(round: RoundId, stake: Stake, users: seq<UserId>): seq<LedgerRow> {
    if users == [] then [] else
      RefundRows(round, stake, users[..|users| - 1])
      + [LedgerRow(Some(users[|users| - 1]), Some(round), RefundRow, stake.asset, stake.amount)]
  }

  /** The house gets a row of its own, with no player, when it takes anything. */
  function PayOutRows(round: RoundId, winner: UserId, asset: Asset, payout: int, rake: int): seq<LedgerRow> {
    [LedgerRow(Some(winner), Some(round), PayoutRow, asset, payout)]
    + (if rake == 0 then [] else [LedgerRow(None, Some(round), RakeRow, asset, rake)])
  }

  function Claim(t: Tables, round: RoundId, settlement: Settlement): Tables {
    t.(settlements := t.settlements[round := settlement])
  }

  function RefundAll(t: Tables, round: RoundId, stake: Stake): (r: Tables)
    requires round in t.entries
    ensures r == t.(balances := r.balances, ledger := r.ledger, settlements := r.settlements)
  {
    if stake.amount == 0 || round in t.settlements then t
    else
      var users := Players(t.entries[round]);
      Claim(t, round, Settlement(0, 0, 0)).(
        balances := ShiftEach(t.balances, users, stake.asset, stake.amount, -(stake.amount as int)),
        ledger := t.ledger + RefundRows(round, stake, users))
  }

  function Pot(t: Tables, round: RoundId, stake: Stake): nat
    requires round in t.entries
  {
    stake.amount * |t.entries[round]|
  }

  /** None when the payout would be below zero: the balance row it inserts violates its check. */
  function PayOut(t: Tables, round: RoundId, winner: UserId, stake: Stake): (r: Option<Tables>)
    requires round in t.entries
    ensures r.Some? ==>
      r.value == t.(balances := r.value.balances, ledger := r.value.ledger, settlements := r.value.settlements)
  {
    if stake.amount == 0 then Some(t) else
      var pot := Pot(t, round, stake);
      var rake := RakeUnits(pot, stake.rakeBps);
      var payout := pot - rake;
      if round in t.settlements then Some(t)
      else if payout < 0 then None
      else
        var users := Players(t.entries[round]);
        Some(Claim(t, round, Settlement(pot, rake, payout)).(
          balances := Deposited(ShiftEach(t.balances, users, stake.asset, 0, -(stake.amount as int)), winner, stake.asset, payout),
          ledger := t.ledger + PayOutRows(round, winner, stake.asset, payout, rake)))
  }

  // Transactions.

  predicate Complete(t: Tables) {
    t.rounds.Keys == t.entries.Keys == t.moves.Keys
  }

  /** A round already accepting players is used; otherwise the game's terms are copied into a new one. */
  function EnsureOpenRound(t: Tables, id: RoundId, terms: Round, joinWindow: nat, now: int): (Tables, Reply) {
    if exists r :: r in t.rounds && t.rounds[r].game == terms.game && t.rounds[r].status == Open && t.rounds[r].joinCloses > now
    then (t, Ok)
    else if id in t.rounds then (t, ConstraintViolated)
    else
      var round := terms.(status := Open, currentTick := 0, tickDeadline := None, winner := None,
                          joinCloses := now + joinWindow);
      (t.(rounds := t.rounds[id := round], entries := t.entries[id := []], moves := t.moves[id := []]), Ok)
  }

  function Join(t: Tables, id: RoundId, user: UserId, admitted: bool, now: int): (r: (Tables, Reply))
    requires Complete(t)
    ensures Complete(r.0)
  {
    if id !in t.rounds then (t, RoundNotFound) else
      var round, entries := t.rounds[id], t.entries[id];
      if round.status != Open || round.joinCloses <= now then (t, RoundClosed)
      else if |entries| >= round.maxPlayers then (t, RoundFull)
      else if !admitted then (t, NotAdmitted)
      else if user in Players(entries) then (t, Ok)
      else
        var seated := t.(entries := t.entries[id := entries + [Entry(user, Alive, None)]]);
        match StakeOf(round)
        case None => (seated, Ok)
        case Some(stake) =>
          match Escrow(seated, user, id, stake.asset, stake.amount)
          case None => (t, InsufficientBalance)
          case Some(staked) => (staked, Ok)
  }

  predicate Overdue(deadline: Option<int>, now: int) {
    deadline.Some? && now > deadline.value
  }

  predicate Early(deadline: Option<int>, now: int) {
    deadline.Some? && now < deadline.value
  }

  function EntryStatusOf(entries: seq<Entry>, user: UserId): Option<EntryStatus> {
    if entries == [] then None
    else if entries[0].user == user then Some(entries[0].status)
    else EntryStatusOf(entries[1..], user)
  }

  function CommitMove(t: Tables, id: RoundId, user: UserId, choice: Choice, now: int): (r: (Tables, Reply))
    requires Complete(t)
    ensures Complete(r.0)
  {
    if id !in t.rounds then (t, RoundNotFound) else
      var round := t.rounds[id];
      if round.status != Running then (t, RoundNotRunning)
      else if Overdue(round.tickDeadline, now) then (t, TickClosed)
      else
        match EntryStatusOf(t.entries[id], user)
        case None => (t, NotInRound)
        case Some(status) =>
          if status != Alive then (t, PlayerEliminated)
          else if exists row :: row in t.moves[id] && row.tick == round.currentTick && row.user == user then (t, AlreadyCommitted)
          else (t.(moves := t.moves[id := t.moves[id] + [MoveRow(round.currentTick, user, choice)]]), Ok)
  }

  function StartOrAbort(t: Tables, id: RoundId, now: int): (r: Tables)
    requires Complete(t) && id in t.rounds
    ensures Complete(r)
  {
    var round, entries := t.rounds[id], t.entries[id];
    if |entries| < round.minPlayers then
      var aborted := WithRound(t, id, round.(status := Aborted), MarkRefunded(entries));
      match StakeOf(round)
      case None => aborted
      case Some(stake) => RefundAll(aborted, id, stake)
    else
      WithRound(t, id, round.(status := Running, currentTick := 1, tickDeadline := Some(now + round.tickSeconds)), entries)
  }

  function TickOutcomeOf(t: Tables, id: RoundId): TickOutcome
    requires Complete(t) && id in t.rounds
  {
    Resolve(AliveUsers(t.entries[id]), MovesAt(t.moves[id], t.rounds[id].currentTick))
  }

  /** The entries after the eliminations of the current tick, before anything else moves. */
  function MarkedEntries(t: Tables, id: RoundId): seq<Entry>
    requires Complete(t) && id in t.rounds
  {
    MarkEliminated(t.entries[id], TickOutcomeOf(t, id).eliminated, t.rounds[id].currentTick)
  }

  function WithRound(t: Tables, id: RoundId, round: Round, entries: seq<Entry>): (r: Tables)
    requires Complete(t) && id in t.rounds
    ensures Complete(r)
  {
    t.(rounds := t.rounds[id := round], entries := t.entries[id := entries])
  }

  function ResolveCurrentTick(t: Tables, id: RoundId, now: int): (r: (Tables, Reply))
    requires Complete(t) && id in t.rounds
    ensures Complete(r.0)
  {
    var round, outcome, marked := t.rounds[id], TickOutcomeOf(t, id), MarkedEntries(t, id);
    if |outcome.survivors| == 0 then
      var aborted := WithRound(t, id, round.(status := Aborted), marked);
      (match StakeOf(round)
       case None => (aborted, Ok)
       case Some(stake) => (RefundAll(aborted, id, stake), Ok))
    else if |outcome.survivors| == 1 then
      var winner := outcome.survivors[0];
      var won := WithRound(t, id, round.(status := Settled, winner := Some(winner)), MarkWon(marked, winner));
      (match StakeOf(round)
       case None => (won, Ok)
       case Some(stake) =>
         match PayOut(won, id, winner, stake)
         case None => (t, ConstraintViolated)
         case Some(paid) => (paid, Ok))
    else
      (WithRound(t, id, round.(currentTick := round.currentTick + 1, tickDeadline := Some(now + round.tickSeconds)), marked), Ok)
  }

  function Advance(t: Tables, id: RoundId, now: int): (r: (Tables, Reply))
    requires Complete(t)
    ensures Complete(r.0)
  {
    if id !in t.rounds then (t, Ok) else
      var round := t.rounds[id];
      if round.status == Open then (StartOrAbort(t, id, now), Ok)
      else if round.status != Running || Early(round.tickDeadline, now) then (t, Ok)
      else ResolveCurrentTick(t, id, now)
  }

  /** One committed or refused transaction, at a reading of the database clock. */
  datatype Event =
    | OpensRound(id: RoundId, terms: Round, joinWindow: nat)
    | Joins(id: RoundId, user: UserId, admitted: bool)
    | Commits(id: RoundId, user: UserId, choice: Choice)
    | Advances(id: RoundId)
    | Deposits(signature: Signature, baseUnits: nat, owner: Option<UserId>, feeBps: FeeBps)

  datatype Timed = Timed(now: int, event: Event)

  function Step(t: Tables, e: Timed): (r: Tables)
    requires Complete(t)
    ensures Complete(r)
  {
    match e.event
    case OpensRound(id, terms, joinWindow) => EnsureOpenRound(t, id, terms, joinWindow, e.now).0
    case Joins(id, user, admitted) => Join(t, id, user, admitted, e.now).0
    case Commits(id, user, choice) => CommitMove(t, id, user, choice, e.now).0
    case Advances(id) => Advance(t, id, e.now).0
    case Deposits(signature, baseUnits, owner, feeBps) => RecordDeposit(t, signature, baseUnits, owner, feeBps)
  }

  function Run(events: seq<Timed>): (t: Tables)
    ensures Complete(t)
  {
    if events == [] then EmptyTables else Step(Run(events[..|events| - 1]), events[|events| - 1])
  }

  /** One confirmed transfer into the house address; `owner` is the account its sender was proved to belong to. */
  function RecordDeposit(t: Tables, signature: Signature, baseUnits: nat, owner: Option<UserId>, feeBps: FeeBps): Tables {
    if signature in t.deposits then t else
      var gross := baseUnits * STEP;
      match owner
      case None => t.(deposits := t.deposits[signature := Deposit(gross, 0, 0, None)])
      case Some(user) =>
        var fee := FeeUnits(gross, feeBps);
        FeeWithinGross(baseUnits, feeBps);
        var row := Deposit(gross, fee, gross - fee, owner);
        Credit(t.(deposits := t.deposits[signature := row]), user, USDC, gross - fee)
  }

  lemma FeeWithinGross(baseUnits: nat, feeBps: FeeBps)
    ensures FeeUnits(baseUnits * STEP, feeBps) <= baseUnits * STEP
  {
    NestedRounding(baseUnits, feeBps);
  }

  /** What is published once a round is over. */
  function Verification(t: Tables, id: RoundId): Option<(Round, seq<Entry>, seq<MoveRow>)>
    requires Complete(t)
  {
    if id in t.rounds && (t.rounds[id].status == Settled || t.rounds[id].status == Aborted)
    then Some((t.rounds[id], t.entries[id], t.moves[id]))
    else None
  }
}
