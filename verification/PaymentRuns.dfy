/** What holds of payments in every run, however requests, webhooks, workers and the chain interleave. */
module PaymentRuns {
  import opened Prelude
  import opened PaymentStatuses
  import opened PaymentTables
  import opened PaymentInvariants
  import opened PaymentJourneys
  import Tx = Transactions

  lemma {:induction false} RunSafe(cap: nat, events: seq<Timed>)
    ensures Safe(Run(cap, events), cap, false)
  {
    hide Step, Healthy;
    if events == [] {
      EmptyHealthy(cap, false);
    } else {
      RunSafe(cap, events[..|events| - 1]);
      StepSafe(Run(cap, events[..|events| - 1]), cap, events[|events| - 1], false);
    }
  }

  lemma {:induction false} RunLater(cap: nat, events: seq<Timed>, i: nat)
    requires i <= |events|
    ensures Later(Run(cap, events[..i]).store, Run(cap, events).store)
    decreases |events|
  {
    hide Step, Safe;
    if i == |events| {
      assert events[..i] == events;
      SameLater(Run(cap, events).store);
    } else {
      var init := events[..|events| - 1];
      assert init[..i] == events[..i];
      RunLater(cap, init, i);
      RunSafe(cap, init);
      StepSafe(Run(cap, init), cap, events[|events| - 1], false);
    }
  }

  /**
   * The log of a payment is an unbroken path from its creation to its current status, every link of it an allowed
   * or a self edge; a payment that does not exist has no lines.
   */
  lemma {:induction false} AuditTrailUnbroken(cap: nat, events: seq<Timed>, id: Id)
    ensures var s := Run(cap, events).store; var lines := LinesOf(s.log, id);
            && (id in s.operations <==> lines != [])
            && (lines != [] ==>
                  && lines[0].from == None && lines[0].to == Created
                  && lines[|lines| - 1].to == s.operations[id].status)
            && (forall i :: 0 < i < |lines| ==>
                  lines[i].from == Some(lines[i - 1].to) && CanTransition(lines[i - 1].to, lines[i].to))
  {
    hide Run, Capped, Directed, Keyed, Referenced, QuotesSpent, AllLinked, Orderly, AllowedNext;
    RunSafe(cap, events);
    TrailIsPath(Run(cap, events).store.log, id);
    assert Audited(Run(cap, events).store);
  }

  lemma {:induction false} NeverOverCap(cap: nat, events: seq<Timed>, user: Id)
    ensures |ActiveOf(Run(cap, events).store.operations, user)| <= cap
  {
    hide Run, Audited, Directed, Keyed, Referenced, QuotesSpent, AllLinked, Orderly, ActiveOf;
    RunSafe(cap, events);
  }

  lemma {:induction false} OnrampStaysOffChain(cap: nat, events: seq<Timed>, id: Id)
    requires id in Run(cap, events).store.operations && Run(cap, events).store.operations[id].operationType == Onramp
    ensures var row := Run(cap, events).store.operations[id];
            row.status != AwaitingChain && row.status != ChainSubmitted && row.intent.None? && row.chainTxHash.None?
  {
    hide Run, Audited, Capped, Keyed, Referenced, QuotesSpent, Orderly;
    RunSafe(cap, events);
    var s := Run(cap, events).store;
    assert WellLinked(id, s.operations[id], s.chain, false);
  }

  /** A user's idempotency key names one payment, and one request, for ever. */
  lemma {:induction false} KeyNamesOnePayment(cap: nat, events: seq<Timed>, i: nat, a: Id, b: Id)
    requires i <= |events| && a in Run(cap, events[..i]).store.operations && b in Run(cap, events).store.operations
    requires var earlier, later := Run(cap, events[..i]).store.operations[a], Run(cap, events).store.operations[b];
             earlier.user == later.user && earlier.key == later.key
    ensures a == b && Run(cap, events[..i]).store.operations[a].fingerprint == Run(cap, events).store.operations[b].fingerprint
  {
    hide Run, Audited, Capped, Directed, Referenced, QuotesSpent, AllLinked, Orderly, Onward;
    RunSafe(cap, events);
    RunLater(cap, events, i);
    assert a in Run(cap, events).store.operations;
    assert Keyed(Run(cap, events).store);
  }

  /** No quote is spent on two payments, not even at different times. */
  lemma {:induction false} QuoteSpentOnce(cap: nat, events: seq<Timed>, i: nat, a: Id, b: Id)
    requires i <= |events| && a in Run(cap, events[..i]).store.operations && b in Run(cap, events).store.operations
    requires Run(cap, events[..i]).store.operations[a].quote.Some?
    requires Run(cap, events[..i]).store.operations[a].quote == Run(cap, events).store.operations[b].quote
    ensures a == b
  {
    hide Run, Audited, Capped, Directed, Referenced, Keyed, AllLinked, Orderly, Onward;
    RunSafe(cap, events);
    RunLater(cap, events, i);
    assert a in Run(cap, events).store.operations;
    assert QuotesSpent(Run(cap, events).store);
  }

  /** However many requests race, the provider is asked to initiate each payment at most once. */
  lemma {:induction false} InitiatedOnce(cap: nat, events: seq<Timed>, i: nat, j: nat)
    requires i < j < |Run(cap, events).calls|
    ensures Run(cap, events).calls[i] != Run(cap, events).calls[j]
  {
    hide Run, Healthy;
    RunSafe(cap, events);
  }

  /** Nothing re-enters `created`, finished payments stay finished, and a payment under review stays there. */
  lemma {:induction false} NothingReopens(cap: nat, events: seq<Timed>, i: nat, id: Id)
    requires i <= |events| && id in Run(cap, events[..i]).store.operations
    ensures id in Run(cap, events).store.operations
    ensures var before, after := Run(cap, events[..i]).store.operations[id].status, Run(cap, events).store.operations[id].status;
            && (after == Created ==> before == Created)
            && (IsTerminal(before) ==> after == before || (before == Completed && after == Reversed))
            && (before == ManualReview ==> after == ManualReview)
  {
    hide Run;
    RunLater(cap, events, i);
  }

  // A linked transfer is confirmed, as long as no event unsettles a linked record.

  ghost predicate NothingUndone(cap: nat, events: seq<Timed>) {
    forall k: nat :: k < |events| ==> !UndoneBy(Run(cap, events[..k]), events[k])
  }

  lemma {:induction false} RunSettled(cap: nat, events: seq<Timed>)
    requires NothingUndone(cap, events)
    ensures Safe(Run(cap, events), cap, true)
  {
    hide Step, Healthy, UndoneBy;
    if events == [] {
      EmptyHealthy(cap, true);
    } else {
      var init := events[..|events| - 1];
      assert forall k :: 0 <= k <= |init| ==> init[..k] == events[..k];
      RunSettled(cap, init);
      assert !UndoneBy(Run(cap, events[..|init|]), events[|init|]);
      StepSafe(Run(cap, init), cap, events[|events| - 1], true);
    }
  }

  /**
   * Then a payment with a chain hash points to a confirmed record, of the payment's own user, wallet and network,
   * whose intent was made for this payment and bound to it.
   */
  lemma {:induction false} TransferIsConfirmed(cap: nat, events: seq<Timed>, id: Id)
    requires NothingUndone(cap, events)
    requires id in Run(cap, events).store.operations && Run(cap, events).store.operations[id].chainTxHash.Some?
    ensures var s := Run(cap, events).store; var row := s.operations[id];
            && row.record.Some? && row.record.value in s.chain.records
            && var found := s.chain.records[row.record.value];
               && found.status == Tx.Confirmed && row.chainTxHash == Some(found.txHash) && row.intent == Some(found.intent)
               && found.user == row.user && Some(found.account) == row.account && Some(found.network) == row.network
               && found.intent in s.chain.intents && s.chain.intents[found.intent].payment == Some(id)
  {
    hide Run, Audited, Capped, Directed, Keyed, Referenced, QuotesSpent, Orderly, NothingUndone;
    RunSettled(cap, events);
    var s := Run(cap, events).store;
    assert WellLinked(id, s.operations[id], s.chain, true);
    var r := s.operations[id].record.value;
    assert r in s.chain.records;
    assert s.chain.records[r].intent in s.chain.intents;
    RecordOfIntent(s.chain, r);
  }

  ghost predicate LinksConfirmed(s: Store) {
    forall id :: id in s.operations && s.operations[id].chainTxHash.Some? ==>
      var r := s.operations[id].record;
      r.Some? && r.value in s.chain.records && s.chain.records[r.value].status == Tx.Confirmed
  }

  /** Every linked transfer is confirmed throughout a run exactly when no event of the run unsettles a linked record. */
  lemma {:induction false} TransfersConfirmedIff(cap: nat, events: seq<Timed>)
    ensures NothingUndone(cap, events) <==> forall j: nat :: j <= |events| ==> LinksConfirmed(Run(cap, events[..j]).store)
  {
    hide Run, Step, UndoneBy, LinksConfirmed;
    if NothingUndone(cap, events) {
      forall j: nat | j <= |events| ensures LinksConfirmed(Run(cap, events[..j]).store) {
        assert forall k :: 0 <= k <= j ==> events[..j][..k] == events[..k];
        AllConfirmed(cap, events[..j]);
      }
    } else {
      var k: nat :| k < |events| && UndoneBy(Run(cap, events[..k]), events[k]);
      RunSafe(cap, events[..k]);
      AfterEvent(cap, events, k);
      UndoneUnconfirms(Run(cap, events[..k]), cap, events[k]);
    }
  }

  lemma {:induction false} AllConfirmed(cap: nat, events: seq<Timed>)
    requires NothingUndone(cap, events)
    ensures LinksConfirmed(Run(cap, events).store)
  {
    hide Run, NothingUndone;
    forall id | id in Run(cap, events).store.operations && Run(cap, events).store.operations[id].chainTxHash.Some?
      ensures var s := Run(cap, events).store; var r := s.operations[id].record;
              r.Some? && r.value in s.chain.records && s.chain.records[r.value].status == Tx.Confirmed
    {
      TransferIsConfirmed(cap, events, id);
    }
  }

  lemma {:induction false} AfterEvent(cap: nat, events: seq<Timed>, k: nat)
    requires k < |events|
    ensures Run(cap, events[..k + 1]) == Step(Run(cap, events[..k]), cap, events[k])
  {
    assert events[..k + 1][..k] == events[..k];
  }

  lemma UndoneUnconfirms(y: System, cap: nat, e: Timed)
    requires Safe(y, cap, false) && UndoneBy(y, e)
    ensures !LinksConfirmed(y.store) || !LinksConfirmed(Step(y, cap, e).store)
  {
    hide Tx.Step, Tx.Unsettles, Tx.Linked, Audited, Capped, Directed, Keyed, Referenced, QuotesSpent, Orderly;
    var t := Tx.Timed(e.now, e.event.act.step);
    var id :| id in y.store.operations && y.store.operations[id].record.Some?
              && Tx.Unsettles(y.store.chain, t, y.store.operations[id].record.value);
    assert WellLinked(id, y.store.operations[id], y.store.chain, false);
    var r := y.store.operations[id].record.value;
    Tx.UnsettlesSettled(y.store.chain, t, r);
    Tx.StatusLostIff(y.store.chain, t, r);
    assert Step(y, cap, e).store.operations[id] == y.store.operations[id];
  }

  // One transaction worker that hears of each write it makes undoes nothing.

  predicate BySoleWorker(e: Timed, worker: Id) {
    OnChainNow(e) ==> Tx.SoleWorker(e.event.act.step, worker)
  }

  lemma {:induction false} OneWorkerUndoesNothing(cap: nat, events: seq<Timed>, worker: Id)
    requires forall i :: 0 <= i < |events| ==> BySoleWorker(events[i], worker)
    ensures NothingUndone(cap, events) && Tx.PicksLive(Run(cap, events).store.chain, worker)
  {
    hide Step, Healthy, Tx.PicksLive, Tx.Linked, Tx.Unsettles;
    if events == [] {
      Tx.NothingHeld(worker);
    } else {
      var init, last := events[..|events| - 1], events[|events| - 1];
      assert forall k :: 0 <= k <= |init| ==> init[..k] == events[..k];
      OneWorkerUndoesNothing(cap, init, worker);
      RunSafe(cap, init);
      ChainStep(Run(cap, init), cap, last);
      if OnChainNow(last) {
        Tx.OneWorkerStep(Run(cap, init).store.chain, Tx.Timed(last.now, last.event.act.step), worker);
      }
      forall k: nat | k < |events| ensures !UndoneBy(Run(cap, events[..k]), events[k]) {
        if k < |init| {
          assert !UndoneBy(Run(cap, init[..k]), init[k]);
        }
      }
    }
  }

  lemma RecordOfIntent(chain: Tx.Chain, r: Id)
    requires Tx.Linked(chain) && r in chain.records
    ensures var row := chain.records[r];
            && row.intent in chain.intents
            && var intent := chain.intents[row.intent];
               intent.user == row.user && intent.account == row.account && intent.network == row.network
  {
  }

  /** Whatever the workers do, no transaction record settles two payments. */
  lemma {:induction false} RecordSettlesOne(cap: nat, events: seq<Timed>, a: Id, b: Id)
    requires a in Run(cap, events).store.operations && b in Run(cap, events).store.operations
    requires Run(cap, events).store.operations[a].record.Some?
    requires Run(cap, events).store.operations[a].record == Run(cap, events).store.operations[b].record
    ensures a == b
  {
    hide Run, Audited, Capped, Directed, Keyed, Referenced, QuotesSpent, Orderly, Tx.Linked;
    RunSafe(cap, events);
    var s := Run(cap, events).store;
    assert WellLinked(a, s.operations[a], s.chain, false) && WellLinked(b, s.operations[b], s.chain, false);
  }
}
