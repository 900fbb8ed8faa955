/** Statements about whole runs of the arcade: published replays, live rounds, and steps that happen once. */
module ArcadeRuns {
  import opened Prelude
  import opened LastMan
  import opened Decimals
  import opened ArcadeTables
  import opened ArcadeMoney
  import opened ArcadeReplay

  // Anyone can check a finished round.

  /**
   * Whatever order the published entries and moves are listed in, folding the tick rule over them gives every
   * recorded elimination tick and the declared winner, and leaves at least two players before the last tick.
   */
  lemma {:induction false} PublishedReplay(events: seq<Timed>, id: RoundId, entrants: seq<UserId>, moves: seq<MoveRow>)
    requires Verification(Run(events), id).Some?
    requires var (_, entries, rows) := Verification(Run(events), id).value;
             && Users(entrants) == Users(Players(entries)) && OncePerTick(moves)
             && forall row :: row in moves <==> row in rows
    ensures var (round, entries, _) := Verification(Run(events), id).value;
            && (forall i :: 0 <= i < |entries| ==>
                  entries[i].eliminatedTick == DroppedAt(entrants, moves, round.currentTick, entries[i].user))
            && (round.status == Settled ==>
                  && round.winner.Some?
                  && Users(AliveAfter(entrants, moves, round.currentTick)) == {round.winner.value})
            && (round.status == Aborted && round.currentTick >= 1 ==>
                  Users(AliveAfter(entrants, moves, round.currentTick)) == {})
            && (forall k :: 1 <= k < round.currentTick ==> |Users(AliveAfter(entrants, moves, k))| >= 2)
  {
    hide AliveAfter, DroppedAt;
    RunConsistent(events);
    var (round, entries, rows) := Verification(Run(events), id).value;
    assert Played(round, entries, rows);
    forall k: nat ensures Users(AliveAfter(entrants, moves, k)) == Users(AliveAfter(Players(entries), rows, k)) {
      ListingIrrelevant(entrants, Players(entries), moves, rows, k);
    }
    forall i | 0 <= i < |entries|
      ensures DroppedAt(entrants, moves, round.currentTick, entries[i].user)
           == DroppedAt(Players(entries), rows, round.currentTick, entries[i].user)
    {
      DropsAgree(entrants, Players(entries), moves, rows, round.currentTick, entries[i].user);
    }
  }

  /** A running round has at least two players alive; only its first tick may see fewer, when its minimum allows. */
  lemma {:induction false} RunningHasRivals(events: seq<Timed>, id: RoundId)
    requires id in Run(events).rounds && Run(events).rounds[id].status == Running
    ensures var t := Run(events); var round, alive := t.rounds[id], Users(AliveUsers(t.entries[id]));
            && (round.currentTick > 1 ==> |alive| >= 2)
            && (round.currentTick == 1 ==> |alive| == |t.entries[id]| >= round.minPlayers)
  {
    hide AliveUsers, Resolve;
    RunConsistent(events);
    var t := Run(events);
    AliveRowsAreReplayed(t.rounds[id], t.entries[id], t.moves[id]);
    DistinctSize(Players(t.entries[id]));
  }

  /**
   * When a due tick leaves the round running, the players alive afterwards are its survivors: fewer than before, at
   * least two, unless everyone alive committed to a tie or to the same side, and then the same.
   */
  lemma {:induction false} TickNarrows(events: seq<Timed>, id: RoundId, now: int)
    requires var t := Run(events);
             && id in t.rounds && t.rounds[id].status == Running && !Early(t.rounds[id].tickDeadline, now)
             && |TickOutcomeOf(t, id).survivors| > 1
    ensures var t := Run(events); var r := Advance(t, id, now).0;
            var alive, after, outcome := AliveUsers(t.entries[id]), AliveUsers(r.entries[id]), TickOutcomeOf(t, id);
            var moves := MovesAt(t.moves[id], t.rounds[id].currentTick);
            && r.rounds[id].status == Running && r.rounds[id].currentTick == t.rounds[id].currentTick + 1
            && Users(after) == Users(outcome.survivors) <= Users(alive) && |Users(after)| >= 2
            && (Users(after) == Users(alive) <==>
                  outcome.repeats && Side(Users(alive), moves, Zero) + Side(Users(alive), moves, One) == Users(alive))
  {
    hide Played, Resolve, MovesAt, AliveUsers, MarkEliminated, MarkWon, AliveAfter, Side, ResolveCurrentTick, Users, Run;
    RunConsistent(events);
    var t := Run(events);
    var round, entries, rows := t.rounds[id], t.entries[id], t.moves[id];
    var r := Advance(t, id, now).0;
    ResolveConsistent(t, id, now);
    ResolveWrites(t, id, now);
    TickReplays(round, entries, rows);
    AliveRowsAreReplayed(r.rounds[id], r.entries[id], r.moves[id]);
    assert Players(r.entries[id]) == Players(entries) by { MarksKeepPlayers(t, id); }
    var outcome := TickOutcomeOf(t, id);
    DistinctSize(outcome.survivors);
    ResolveMeetsRule(AliveUsers(entries), MovesAt(rows, round.currentTick));
    SomeoneAlive(AliveUsers(entries), MovesAt(rows, round.currentTick));
    NobodyOutIff(AliveUsers(entries), MovesAt(rows, round.currentTick));
    var live, stay, out := Users(AliveUsers(entries)), Users(outcome.survivors), Users(outcome.eliminated);
    assert Users(AliveUsers(r.entries[id])) == stay;
    assert out == live - stay && stay <= live;
    NobodyGone(live, stay, out);
  }

  lemma NobodyGone(live: set<UserId>, stay: set<UserId>, out: set<UserId>)
    requires stay <= live && out == live - stay
    ensures out == {} <==> stay == live
  {
    assert live == stay + out;
  }

  lemma MarksKeepPlayers(t: Tables, id: RoundId)
    requires Complete(t) && id in t.rounds
    ensures Players(MarkedEntries(t, id)) == Players(t.entries[id])
  {
  }

  lemma SomeoneAlive(alive: seq<UserId>, moves: seq<Move>)
    requires |Resolve(alive, moves).survivors| > 1
    ensures alive != []
  {
  }

  // A round only moves forward, and stands still once it is over.

  ghost predicate Forward(t: Tables, r: Tables, id: RoundId)
    requires Complete(t) && Complete(r) && id in t.rounds
  {
    && id in r.rounds
    && (Unfinished(t.rounds[id]) ==> r.rounds[id].currentTick >= t.rounds[id].currentTick)
    && (t.rounds[id].status == Running ==> r.rounds[id].status != Open)
    && (!Unfinished(t.rounds[id]) ==>
          && r.rounds[id] == t.rounds[id] && r.entries[id] == t.entries[id] && r.moves[id] == t.moves[id]
          && (id in t.settlements ==> id in r.settlements && r.settlements[id] == t.settlements[id]))
  }

  lemma AdvanceForward(t: Tables, other: RoundId, id: RoundId, now: int)
    requires Consistent(t) && id in t.rounds
    ensures Forward(t, Advance(t, other, now).0, id)
    ensures var r := Advance(t, other, now).0;
            other == id && t.rounds[id].status == Running && r != t ==>
              !Unfinished(r.rounds[id]) || r.rounds[id].currentTick == t.rounds[id].currentTick + 1
  {
    hide Played, Resolve, MovesAt, AliveUsers, MarkEliminated, MarkWon, Players, StartOrAbort, ResolveCurrentTick;
    SettlementsKept(t, other, now);
    if other in t.rounds && t.rounds[other].status == Open {
      OpenAtTickZero(t.rounds[other], t.entries[other], t.moves[other]);
      StartWrites(t, other, now);
    } else if other in t.rounds && t.rounds[other].status == Running {
      ResolveWrites(t, other, now);
    }
  }

  /** A settlement row, once written, is never written again. */
  lemma SettlementsKept(t: Tables, id: RoundId, now: int)
    requires Complete(t)
    ensures forall x :: x in t.settlements ==>
              x in Advance(t, id, now).0.settlements && Advance(t, id, now).0.settlements[x] == t.settlements[x]
  {
    hide Resolve, MovesAt, AliveUsers, MarkEliminated, MarkWon, MarkRefunded, Players, ShiftEach, RefundRows,
      PayOutRows, RakeUnits, Complete, StakeOf, Deposited;
  }

  lemma OpenAtTickZero(round: Round, entries: seq<Entry>, rows: seq<MoveRow>)
    requires Played(round, entries, rows) && round.status == Open
    ensures round.currentTick == 0
  {
  }

  lemma StepForward(t: Tables, e: Timed, id: RoundId)
    requires Consistent(t) && id in t.rounds
    ensures Forward(t, Step(t, e), id)
  {
    hide Played, Join, Advance, RecordDeposit;
    match e.event
    case OpensRound(x, terms, joinWindow) =>
    case Joins(x, user, admitted) => JoinWrites(t, x, user, admitted, e.now);
    case Commits(x, user, choice) =>
    case Advances(x) => AdvanceForward(t, x, id, e.now);
    case Deposits(signature, baseUnits, owner, feeBps) => DepositWrites(t, signature, baseUnits, owner, feeBps);
  }

  lemma DepositWrites(t: Tables, signature: Signature, baseUnits: nat, owner: Option<UserId>, feeBps: FeeBps)
    ensures var r := RecordDeposit(t, signature, baseUnits, owner, feeBps);
            r == t.(balances := r.balances, ledger := r.ledger, deposits := r.deposits)
  {
    hide FeeUnits;
  }

  lemma {:induction false} RunForward(events: seq<Timed>, i: nat, id: RoundId)
    requires i <= |events| && id in Run(events[..i]).rounds
    ensures Forward(Run(events[..i]), Run(events), id)
    decreases |events|
  {
    hide Run, Step;
    if i == |events| {
      assert events[..i] == events;
    } else {
      var init := events[..|events| - 1];
      assert init[..i] == events[..i];
      RunForward(init, i, id);
      RunConsistent(init);
      StepForward(Run(init), events[|events| - 1], id);
      RunStep(events);
    }
  }

  lemma {:induction false} RunStep(events: seq<Timed>)
    requires events != []
    ensures Run(events) == Step(Run(events[..|events| - 1]), events[|events| - 1])
  {
  }

  /** Event `i` of the run resolves tick `k` of the round. */
  ghost predicate ResolvesAt(events: seq<Timed>, i: nat, id: RoundId, k: nat)
    requires i < |events|
  {
    var t := Run(events[..i]);
    && events[i].event == Advances(id) && id in t.rounds && t.rounds[id].status == Running
    && t.rounds[id].currentTick == k && Step(t, events[i]) != t
  }

  /** Event `i` of the run ends the round. */
  ghost predicate FinishesAt(events: seq<Timed>, i: nat, id: RoundId)
    requires i < |events|
  {
    var t := Run(events[..i]);
    id in t.rounds && Unfinished(t.rounds[id]) && id in Step(t, events[i]).rounds && !Unfinished(Step(t, events[i]).rounds[id])
  }

  lemma AfterEvent(events: seq<Timed>, i: nat)
    requires i < |events|
    ensures Run(events[..i + 1]) == Step(Run(events[..i]), events[i])
  {
    assert events[..i + 1][..i] == events[..i];
  }

  /** However many workers advance a round, in whatever order, no tick is resolved twice. */
  lemma TickResolvedOnce(events: seq<Timed>, i: nat, j: nat, id: RoundId, k: nat)
    requires i < j < |events| && ResolvesAt(events, i, id, k)
    ensures !ResolvesAt(events, j, id, k)
  {
    hide Step, Run;
    RunConsistent(events[..i]);
    AfterEvent(events, i);
    var t, after := Run(events[..i]), Run(events[..i + 1]);
    AdvanceStep(t, events[i], id);
    AdvanceForward(t, id, id, events[i].now);
    assert events[..j][..i + 1] == events[..i + 1];
    RunForward(events[..j], i + 1, id);
  }

  lemma AdvanceStep(t: Tables, e: Timed, id: RoundId)
    requires Complete(t) && e.event == Advances(id)
    ensures Step(t, e) == Advance(t, id, e.now).0
  {
  }

  /** No round is ended twice, and what was recorded when it ended stays as it is. */
  lemma FinishedOnce(events: seq<Timed>, i: nat, j: nat, id: RoundId)
    requires i < j < |events| && FinishesAt(events, i, id)
    ensures !FinishesAt(events, j, id)
    ensures var ended, later := Run(events[..i + 1]), Run(events[..j]);
            && id in ended.rounds && id in later.rounds && later.rounds[id] == ended.rounds[id]
            && later.entries[id] == ended.entries[id] && later.moves[id] == ended.moves[id]
            && (Seat(ended.rounds[id]) > 0 ==>
                  && id in ended.settlements && id in later.settlements
                  && later.settlements[id] == ended.settlements[id])
  {
    hide Step, Run, AvailableIsLedger, EscrowIsSeats, RoundsClear, Conserved, NoDebt, SeatsDistinct;
    AfterEvent(events, i);
    RunForward(events[..i + 1], i, id) by { assert events[..i + 1][..i] == events[..i]; }
    RunSound(events[..i + 1]);
    assert events[..j][..i + 1] == events[..i + 1];
    RunForward(events[..j], i + 1, id);
  }

  /** A round that still holds escrow has no settlement row, so the claim to settle it is never refused. */
  lemma {:induction false} ClaimNeverRefused(events: seq<Timed>, id: RoundId)
    requires id in Run(events).rounds && Unfinished(Run(events).rounds[id])
    ensures id !in Run(events).settlements
  {
    hide AvailableIsLedger, EscrowIsSeats, RoundsClear, Conserved, NoDebt, SeatsDistinct;
    RunSound(events);
  }

  /**
   * Exactly when a due tick with one survivor cannot settle: the rake of its pot exceeds the pot, so the payout
   * would put a negative amount in a balance. No rate up to the whole of the pot does that.
   */
  lemma {:induction false} SettlementRefused(events: seq<Timed>, id: RoundId, now: int)
    requires var t := Run(events);
             id in t.rounds && t.rounds[id].status == Running && !Early(t.rounds[id].tickDeadline, now)
             && |TickOutcomeOf(t, id).survivors| == 1
    ensures var t := Run(events); var round := t.rounds[id]; var pot := Seat(round) * |t.entries[id]|;
            && (Advance(t, id, now).1 == ConstraintViolated <==> Seat(round) > 0 && pot * round.rakeBps >= (pot + 1) * 10000)
            && (Advance(t, id, now).1 == ConstraintViolated ==> Advance(t, id, now).0 == t && round.rakeBps > 10000)
  {
    hide Run, Resolve, MovesAt, AliveUsers, MarkEliminated, MarkWon, RakeUnits, Advance, Times;
    ClaimNeverRefused(events, id);
    var t := Run(events);
    var round := t.rounds[id];
    var pot := Seat(round) * |t.entries[id]|;
    RakeWithinPot(pot, round.rakeBps);
    DueTick(t, id, now);
  }

  /** A due tick with one survivor is refused exactly when its payout would be below zero. */
  lemma DueTick(t: Tables, id: RoundId, now: int)
    requires Complete(t) && id in t.rounds && id !in t.settlements
    requires t.rounds[id].status == Running && !Early(t.rounds[id].tickDeadline, now)
    requires |TickOutcomeOf(t, id).survivors| == 1
    ensures var round := t.rounds[id]; var pot := Seat(round) * |t.entries[id]|; var (r, reply) := Advance(t, id, now);
            && (reply == ConstraintViolated <==> Seat(round) > 0 && pot < RakeUnits(pot, round.rakeBps))
            && (reply == ConstraintViolated ==> r == t)
  {
    hide Resolve, MovesAt, AliveUsers, MarkEliminated, MarkWon, RakeUnits, Deposited, ShiftEach, PayOutRows;
    MarksKeepSize(t, id);
  }

  lemma MarksKeepSize(t: Tables, id: RoundId)
    requires Complete(t) && id in t.rounds
    ensures forall w :: |MarkWon(MarkedEntries(t, id), w)| == |t.entries[id]|
  {
  }
}
