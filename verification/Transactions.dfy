/**
 * Signed transaction intents, the records of their broadcasts, and the workers that reconcile records with the chain.
 *
 * Each function is one statement or transaction of the repository. A worker reads a batch of due records and later
 * writes each one back, so other steps, and other workers, may come between the read and the write.
 */
module Transactions {
  import opened Prelude

  datatype IntentStatus =
    AwaitingSignature | AwaitingApproval | IntentBroadcasting | IntentSubmitted | IntentConfirmed | IntentFailed | IntentUnknown
  datatype IntentKind = Swap | Approval | Withdrawal | PaymentTransfer
  /** `payment` is the payment operation its reviewed summary names, if any. */
  datatype Intent = Intent(user: Id, account: Id, network: Id, kind: IntentKind, status: IntentStatus, expiresAt: int,
                           payment: Option<Id>)
  datatype RecordStatus = Broadcasting | Submitted | Confirmed | Failed | Dropped | Unknown
  datatype Record = Record(intent: Id, user: Id, account: Id, network: Id, txHash: Id, status: RecordStatus,
                           attempts: nat, nextReconcile: Option<int>)
  datatype Picked = Picked(record: Id, attempts: nat)

  datatype Chain = Chain(intents: map<Id, Intent>, records: map<Id, Record>, batches: map<Id, seq<Picked>>)

  const EmptyChain := Chain(map[], map[], map[])

  datatype ClaimReply = Claimed | AlreadyRecorded | NotSubmittable | DuplicateKey

  predicate Unsigned(intent: Intent) {
    intent.status == AwaitingSignature || intent.status == AwaitingApproval
  }

  predicate Submittable(intent: Intent, user: Id, now: int) {
    intent.user == user && Unsigned(intent) && intent.expiresAt > now
  }

  function CreateIntent(c: Chain, id: Id, intent: Intent): Chain {
    if id in c.intents || !Unsigned(intent) then c
    else c.(intents := c.intents[id := intent])
  }

  function Claim(c: Chain, id: Id, user: Id, record: Id, txHash: Id, now: int): (Chain, ClaimReply) {
    if id in c.intents && Submittable(c.intents[id], user, now) then
      var intent := c.intents[id];
      if record in c.records
         || exists r :: r in c.records
              && (c.records[r].intent == id || (c.records[r].network == intent.network && c.records[r].txHash == txHash))
      then (c, DuplicateKey)
      else (c.(intents := c.intents[id := intent.(status := IntentBroadcasting)],
               records := c.records[record := Record(id, intent.user, intent.account, intent.network, txHash, Broadcasting,
                                                     0, Some(now))]),
            Claimed)
    else if exists r :: r in c.records && c.records[r].user == user && c.records[r].intent == id then (c, AlreadyRecorded)
    else (c, NotSubmittable)
  }

  /** One joined update of a record and its intent; a record without an intent row is not touched. */
  function Written(c: Chain, record: Id, row: Record, status: IntentStatus): Chain
    requires record in c.records && row.intent in c.intents
  {
    c.(records := c.records[record := row], intents := c.intents[row.intent := c.intents[row.intent].(status := status)])
  }

  predicate Joined(c: Chain, record: Id) {
    record in c.records && c.records[record].intent in c.intents
  }

  function MarkBroadcast(c: Chain, record: Id, now: int): Chain {
    if !Joined(c, record) || c.records[record].status != Broadcasting then c else
      Written(c, record, c.records[record].(status := Submitted, nextReconcile := Some(now)), IntentSubmitted)
  }

  function MarkBroadcastUnknown(c: Chain, record: Id, now: int): Chain {
    if !Joined(c, record) || c.records[record].status != Broadcasting then c else
      Written(c, record, c.records[record].(status := Unknown, nextReconcile := Some(now + 15)), IntentUnknown)
  }

  predicate Live(status: RecordStatus) {
    status == Broadcasting || status == Submitted || status == Unknown
  }

  function Backoff(attempts: nat): nat {
    var delay := 15 * PowerOfTwo(if attempts < 4 then attempts else 4);
    if delay < 300 then delay else 300
  }

  /** The status written for an answer: one that settles nothing becomes unknown when the attempts are used up. */
  function Final(status: RecordStatus, attempts: nat, max: nat): RecordStatus {
    if Live(status) && attempts >= max then Unknown else status
  }

  /** The write has no guard on the status the record has now. */
  function Reconcile(c: Chain, record: Id, status: RecordStatus, attempts: nat, max: nat, now: int): Chain {
    if !Joined(c, record) then c else
      var row := c.records[record];
      var final := Final(status, attempts, max);
      var next := if !Live(status) || attempts >= max then None else Some(now + Backoff(attempts));
      var intent := c.intents[row.intent].status;
      Written(c, record, row.(status := final, attempts := attempts, nextReconcile := next),
              if final == Confirmed then IntentConfirmed else if final == Failed then IntentFailed else intent)
  }

  predicate Due(row: Record, max: nat, now: int) {
    Live(row.status) && row.attempts < max && (row.nextReconcile.Some? ==> row.nextReconcile.value <= now)
  }

  predicate Listed(picks: seq<Picked>, record: Id) {
    exists p :: p in picks && p.record == record
  }

  /** The due records among `ids`, in that order; which due rows a limited query returns first is up to the database. */
  function Pick(c: Chain, ids: seq<Id>, max: nat, now: int): seq<Picked> {
    if ids == [] then [] else
      var earlier, id := Pick(c, ids[..|ids| - 1], max, now), ids[|ids| - 1];
      if id in c.records && Due(c.records[id], max, now) && !Listed(earlier, id)
      then earlier + [Picked(id, c.records[id].attempts)] else earlier
  }

  function BatchOf(c: Chain, worker: Id): seq<Picked> {
    if worker in c.batches then c.batches[worker] else []
  }

  datatype Event =
    | Creates(id: Id, intent: Intent)
    | Claims(id: Id, user: Id, record: Id, txHash: Id)
    | Broadcasts(record: Id)
    | LosesBroadcast(record: Id)
    | Picks(worker: Id, ids: seq<Id>, max: nat)
    | Resolves(worker: Id, status: RecordStatus, max: nat)
    | WritesUnheard(worker: Id, status: RecordStatus, max: nat)
    | Skips(worker: Id)

  datatype Timed = Timed(now: int, event: Event)

  /** The worker writes back the first record it holds. */
  function WriteBack(c: Chain, worker: Id, status: RecordStatus, max: nat, now: int): Chain {
    var batch := BatchOf(c, worker);
    if batch == [] || status == Broadcasting then c
    else Reconcile(c, batch[0].record, status, batch[0].attempts + 1, max, now)
  }

  /**
   * A worker starts a batch only when it has finished the one before, and writes its records back in order. When a
   * write commits but its reply is lost, the worker goes on holding the record and may write it again.
   */
  function Step(c: Chain, e: Timed): Chain {
    match e.event
    case Creates(id, intent) => CreateIntent(c, id, intent)
    case Claims(id, user, record, txHash) => Claim(c, id, user, record, txHash, e.now).0
    case Broadcasts(record) => MarkBroadcast(c, record, e.now)
    case LosesBroadcast(record) => MarkBroadcastUnknown(c, record, e.now)
    case Picks(worker, ids, max) =>
      if BatchOf(c, worker) != [] then c else c.(batches := c.batches[worker := Pick(c, ids, max, e.now)])
    case Resolves(worker, status, max) =>
      var batch := BatchOf(c, worker);
      if batch == [] || status == Broadcasting then c else
        WriteBack(c, worker, status, max, e.now).(batches := c.batches[worker := batch[1..]])
    case WritesUnheard(worker, status, max) => WriteBack(c, worker, status, max, e.now)
    case Skips(worker) =>
      var batch := BatchOf(c, worker);
      if batch == [] then c else c.(batches := c.batches[worker := batch[1..]])
  }

  function Run(events: seq<Timed>): Chain {
    if events == [] then EmptyChain else Step(Run(events[..|events| - 1]), events[|events| - 1])
  }

  // What every run keeps.

  /** Each record belongs to one intent, copies its owner, wallet and network, and that intent is past signing. */
  ghost predicate Linked(c: Chain) {
    && (forall r :: r in c.records ==>
          var row := c.records[r];
          && row.intent in c.intents
          && var intent := c.intents[row.intent];
             && intent.user == row.user && intent.account == row.account && intent.network == row.network
             && !Unsigned(intent))
    && (forall r, q :: r in c.records && q in c.records && c.records[r].intent == c.records[q].intent ==> r == q)
  }

  /** Nothing but the status of an intent, and nothing but the progress of a record, ever changes. */
  ghost predicate Extends(c: Chain, d: Chain) {
    && (forall i :: i in c.intents ==>
          && i in d.intents
          && d.intents[i] == c.intents[i].(status := d.intents[i].status)
          && (Unsigned(d.intents[i]) ==> Unsigned(c.intents[i])))
    && (forall r :: r in c.records ==>
          && r in d.records
          && d.records[r] == c.records[r].(status := d.records[r].status, attempts := d.records[r].attempts,
                                           nextReconcile := d.records[r].nextReconcile))
  }

  lemma WrittenKeeps(c: Chain, record: Id, row: Record, status: IntentStatus)
    requires Linked(c) && record in c.records && status != AwaitingSignature && status != AwaitingApproval
    requires row == c.records[record].(status := row.status, attempts := row.attempts, nextReconcile := row.nextReconcile)
    ensures Linked(Written(c, record, row, status)) && Extends(c, Written(c, record, row, status))
  {
  }

  lemma ClaimKeeps(c: Chain, id: Id, user: Id, record: Id, txHash: Id, now: int)
    requires Linked(c)
    ensures Linked(Claim(c, id, user, record, txHash, now).0) && Extends(c, Claim(c, id, user, record, txHash, now).0)
  {
  }

  lemma MarksKeep(c: Chain, record: Id, now: int)
    requires Linked(c)
    ensures Linked(MarkBroadcast(c, record, now)) && Extends(c, MarkBroadcast(c, record, now))
    ensures Linked(MarkBroadcastUnknown(c, record, now)) && Extends(c, MarkBroadcastUnknown(c, record, now))
  {
    hide Linked, Extends, Written;
    if Joined(c, record) {
      var row := c.records[record];
      WrittenKeeps(c, record, row.(status := Submitted, nextReconcile := Some(now)), IntentSubmitted);
      WrittenKeeps(c, record, row.(status := Unknown, nextReconcile := Some(now + 15)), IntentUnknown);
    }
    Unchanged(c);
  }

  lemma Unchanged(c: Chain)
    ensures Extends(c, c)
  {
  }

  lemma StepLinked(c: Chain, e: Timed)
    requires Linked(c)
    ensures Linked(Step(c, e)) && Extends(c, Step(c, e))
  {
    hide Claim, Reconcile, MarkBroadcast, MarkBroadcastUnknown, Pick;
    match e.event
    case Creates(id, intent) =>
    case Claims(id, user, record, txHash) => ClaimKeeps(c, id, user, record, txHash, e.now);
    case Broadcasts(record) => MarksKeep(c, record, e.now);
    case LosesBroadcast(record) => MarksKeep(c, record, e.now);
    case Picks(worker, ids, max) =>
    case Resolves(worker, status, max) =>
      var batch := BatchOf(c, worker);
      if batch != [] {
        ReconcileKeeps(c, batch[0].record, status, batch[0].attempts + 1, max, e.now);
      }
    case WritesUnheard(worker, status, max) =>
      var batch := BatchOf(c, worker);
      Unchanged(c);
      if batch != [] {
        ReconcileKeeps(c, batch[0].record, status, batch[0].attempts + 1, max, e.now);
      }
    case Skips(worker) =>
  }

  lemma ReconcileKeeps(c: Chain, record: Id, status: RecordStatus, attempts: nat, max: nat, now: int)
    requires Linked(c)
    ensures Linked(Reconcile(c, record, status, attempts, max, now))
    ensures Extends(c, Reconcile(c, record, status, attempts, max, now))
  {
    if Joined(c, record) {
      var r := Reconcile(c, record, status, attempts, max, now);
      var row := c.records[record];
      WrittenKeeps(c, record, r.records[record], r.intents[row.intent].status);
    }
  }

  lemma {:induction false} RunLinked(events: seq<Timed>)
    ensures Linked(Run(events))
  {
    if events != [] {
      RunLinked(events[..|events| - 1]);
      StepLinked(Run(events[..|events| - 1]), events[|events| - 1]);
    }
  }

  lemma {:induction false} RunExtends(events: seq<Timed>, i: nat)
    requires i <= |events|
    ensures Extends(Run(events[..i]), Run(events))
    decreases |events|
  {
    if i == |events| {
      assert events[..i] == events;
    } else {
      var init := events[..|events| - 1];
      assert init[..i] == events[..i];
      RunExtends(init, i);
      RunLinked(init);
      StepLinked(Run(init), events[|events| - 1]);
    }
  }

  /** Event `i` of the run gives its caller the right to broadcast the intent. */
  ghost predicate ClaimsAt(events: seq<Timed>, i: nat, id: Id)
    requires i < |events|
  {
    var e := events[i];
    e.event.Claims? && e.event.id == id
    && Claim(Run(events[..i]), id, e.event.user, e.event.record, e.event.txHash, e.now).1 == Claimed
  }

  /** A signed intent is claimed for broadcast at most once, whatever happens in between. */
  lemma ClaimedOnce(events: seq<Timed>, i: nat, j: nat, id: Id)
    requires i < j < |events| && ClaimsAt(events, i, id)
    ensures !ClaimsAt(events, j, id)
  {
    assert events[..i + 1][..i] == events[..i];
    assert events[..j][..i + 1] == events[..i + 1];
    RunExtends(events[..j], i + 1);
  }

  // When a settled record stays settled.

  /** A settled record keeps its status. */
  ghost predicate SettledStays(c: Chain, d: Chain) {
    forall r :: r in c.records && !Live(c.records[r].status) ==> r in d.records && d.records[r].status == c.records[r].status
  }

  /** A worker writes the record back with another status, although it is settled by now. */
  predicate Unsettles(c: Chain, e: Timed, record: Id) {
    && (e.event.Resolves? || e.event.WritesUnheard?)
    && var batch := BatchOf(c, e.event.worker);
       && batch != [] && batch[0].record == record && e.event.status != Broadcasting && Joined(c, record)
       && !Live(c.records[record].status)
       && Final(e.event.status, batch[0].attempts + 1, e.event.max) != c.records[record].status
  }

  /** The one way a settled record can lose its status. */
  lemma StatusLostIff(c: Chain, e: Timed, record: Id)
    requires Linked(c) && record in c.records && !Live(c.records[record].status)
    ensures record in Step(c, e).records
    ensures Step(c, e).records[record].status != c.records[record].status <==> Unsettles(c, e, record)
  {
    hide Linked, Pick, Backoff;
    assert Joined(c, record) by { RecordJoined(c, record); }
  }

  lemma RecordJoined(c: Chain, record: Id)
    requires Linked(c) && record in c.records
    ensures Joined(c, record)
  {
  }

  lemma StepSettledIff(c: Chain, e: Timed)
    requires Linked(c)
    ensures SettledStays(c, Step(c, e)) <==> forall r :: !Unsettles(c, e, r)
  {
    hide Linked, Step, Unsettles;
    forall r | r in c.records && !Live(c.records[r].status)
      ensures r in Step(c, e).records
      ensures Step(c, e).records[r].status != c.records[r].status <==> Unsettles(c, e, r)
    {
      StatusLostIff(c, e, r);
    }
    forall r | Unsettles(c, e, r) ensures r in c.records && !Live(c.records[r].status) {
      UnsettlesSettled(c, e, r);
    }
  }

  lemma UnsettlesSettled(c: Chain, e: Timed, record: Id)
    requires Unsettles(c, e, record)
    ensures record in c.records && !Live(c.records[record].status)
  {
  }

  /** No event of the run unsettles a record. */
  ghost predicate NothingUnsettled(events: seq<Timed>) {
    forall k: nat, r: Id :: k < |events| ==> !Unsettles(Run(events[..k]), events[k], r)
  }

  lemma {:induction false} SettledThroughout(events: seq<Timed>, i: nat)
    requires NothingUnsettled(events) && i <= |events|
    ensures SettledStays(Run(events[..i]), Run(events))
    decreases |events|
  {
    hide Step, Unsettles;
    if i == |events| {
      assert events[..i] == events;
    } else {
      var init, last := events[..|events| - 1], events[|events| - 1];
      assert forall k :: 0 <= k <= |init| ==> init[..k] == events[..k];
      SettledThroughout(init, i);
      RunLinked(init);
      StepSettledIff(Run(init), last);
      assert forall r :: !Unsettles(Run(events[..|init|]), events[|init|], r);
    }
  }

  /** Settled records stay settled throughout a run exactly when none of its events unsettles one. */
  lemma {:induction false} SettledStaysIff(events: seq<Timed>)
    ensures NothingUnsettled(events) <==>
            forall i: nat, j: nat :: i <= j <= |events| ==> SettledStays(Run(events[..i]), Run(events[..j]))
  {
    hide Run, Step, Unsettles, SettledStays;
    if NothingUnsettled(events) {
      forall i: nat, j: nat | i <= j <= |events| ensures SettledStays(Run(events[..i]), Run(events[..j])) {
        assert forall k :: 0 <= k <= j ==> events[..j][..k] == events[..k];
        SettledThroughout(events[..j], i);
      }
    } else {
      var k: nat, r: Id :| k < |events| && Unsettles(Run(events[..k]), events[k], r);
      RunLinked(events[..k]);
      StepSettledIff(Run(events[..k]), events[k]);
      RunPrefix(events, k);
      assert k <= k + 1 <= |events|;
    }
  }

  lemma RunPrefix(events: seq<Timed>, i: nat)
    requires i < |events|
    ensures Run(events[..i + 1]) == Step(Run(events[..i]), events[i])
  {
    assert events[..i + 1][..i] == events[..i];
  }

  // One worker, all of whose writes are answered, unsettles nothing.

  /** Only this worker ever picks up records, and it hears of each write it makes. */
  predicate SoleWorker(e: Event, worker: Id) {
    (e.Picks? ==> e.worker == worker) && !e.WritesUnheard?
  }

  ghost predicate OneWorker(events: seq<Timed>, worker: Id) {
    forall i :: 0 <= i < |events| ==> SoleWorker(events[i].event, worker)
  }

  /** Records picked up and not yet written back are unsettled, and no batch lists one twice. */
  ghost predicate PicksLive(c: Chain, worker: Id) {
    && (forall w :: w in c.batches && w != worker ==> c.batches[w] == [])
    && AllLive(c, BatchOf(c, worker))
  }

  ghost predicate AllLive(c: Chain, picks: seq<Picked>) {
    && (forall i :: 0 <= i < |picks| ==> picks[i].record in c.records && Live(c.records[picks[i].record].status))
    && (forall i, j :: 0 <= i < j < |picks| ==> picks[i].record != picks[j].record)
  }

  lemma {:induction false} PickedLive(c: Chain, ids: seq<Id>, max: nat, now: int)
    ensures AllLive(c, Pick(c, ids, max, now))
  {
    if ids != [] {
      var earlier := Pick(c, ids[..|ids| - 1], max, now);
      PickedLive(c, ids[..|ids| - 1], max, now);
      var id := ids[|ids| - 1];
      assert forall i :: 0 <= i < |earlier| ==> earlier[i] in earlier;
      var picks := Pick(c, ids, max, now);
      if picks != earlier {
        assert picks == earlier + [Picked(id, c.records[id].attempts)];
        assert !Listed(earlier, id);
      }
    }
  }

  lemma OneWorkerResolves(c: Chain, e: Timed, worker: Id)
    requires Linked(c) && PicksLive(c, worker) && e.event.Resolves?
    ensures PicksLive(Step(c, e), worker)
  {
    hide PowerOfTwo, Backoff;
    var w, batch := e.event.worker, BatchOf(c, worker);
    if BatchOf(c, w) != [] && e.event.status != Broadcasting {
      assert w == worker;
      assert AllLive(c, batch[1..]) && forall i :: 0 <= i < |batch[1..]| ==> batch[1..][i].record != batch[0].record;
    }
  }

  /** What the worker holds is not settled, so nothing it writes unsettles a record. */
  lemma HeadsLive(c: Chain, e: Timed, worker: Id)
    requires PicksLive(c, worker)
    ensures forall r :: !Unsettles(c, e, r)
  {
    hide Final;
  }

  lemma OneWorkerStep(c: Chain, e: Timed, worker: Id)
    requires Linked(c) && PicksLive(c, worker) && SoleWorker(e.event, worker)
    ensures PicksLive(Step(c, e), worker) && forall r :: !Unsettles(c, e, r)
  {
    hide Reconcile, Pick, Unsettles, Linked;
    HeadsLive(c, e, worker);
    match e.event
    case Creates(id, intent) =>
    case Claims(id, user, record, txHash) =>
    case Broadcasts(record) =>
    case LosesBroadcast(record) =>
    case Picks(w, ids, max) => PickedLive(c, ids, max, e.now);
    case Resolves(w, status, max) => OneWorkerResolves(c, e, worker);
    case Skips(w) =>
      if BatchOf(c, w) != [] {
        assert w == worker;
        var batch := BatchOf(c, worker);
        assert forall i :: 0 <= i < |batch[1..]| ==> batch[1..][i] == batch[i + 1];
      }
  }

  lemma {:induction false} OneWorkerRun(events: seq<Timed>, worker: Id)
    requires OneWorker(events, worker)
    ensures PicksLive(Run(events), worker) && NothingUnsettled(events)
  {
    hide Step, Unsettles, PicksLive;
    if events == [] {
      assert PicksLive(EmptyChain, worker) by { NothingHeld(worker); }
    } else {
      var init, last := events[..|events| - 1], events[|events| - 1];
      OneWorkerRun(init, worker);
      RunLinked(init);
      OneWorkerStep(Run(init), last, worker);
      assert forall k :: 0 <= k <= |init| ==> init[..k] == events[..k];
      forall k: nat, r: Id | k < |events| ensures !Unsettles(Run(events[..k]), events[k], r) {
        if k < |init| {
          assert !Unsettles(Run(init[..k]), init[k], r);
        }
      }
    }
  }

  lemma NothingHeld(worker: Id)
    ensures PicksLive(EmptyChain, worker)
  {
  }

  /** With one reconciliation worker, whose writes are all answered, a confirmed record stays confirmed. */
  lemma {:induction false} ConfirmedStays(events: seq<Timed>, i: nat, j: nat, worker: Id, record: Id)
    requires OneWorker(events, worker) && i <= j <= |events|
    requires record in Run(events[..i]).records && Run(events[..i]).records[record].status == Confirmed
    ensures record in Run(events[..j]).records && Run(events[..j]).records[record].status == Confirmed
  {
    hide Run, Unsettles;
    OneWorkerRun(events, worker);
    SettledStaysIff(events);
    assert SettledStays(Run(events[..i]), Run(events[..j]));
  }

  // Otherwise it need not: a second worker writes back what it read before the first one settled the record, and a
  // worker that did not hear of its write writes again.

  const INTENT := Intent(1, 1, 1, PaymentTransfer, AwaitingSignature, 100, Some(1))
  const BROADCAST := INTENT.(status := IntentBroadcasting)
  const RECORD := Record(1, 1, 1, 1, 7, Broadcasting, 0, Some(1))
  const OPENING := [Timed(0, Creates(1, INTENT)), Timed(1, Claims(1, 1, 7, 7)), Timed(2, Picks(1, [7], 5))]

  lemma OpeningRun()
    ensures Run(OPENING) == Chain(map[1 := BROADCAST], map[7 := RECORD], map[1 := [Picked(7, 0)]])
  {
    hide Pick, Reconcile;
    var claimed := Chain(map[1 := BROADCAST], map[7 := RECORD], map[]);
    PickOne(claimed, 7, 5, 2);
    RunPrefix(OPENING, 0);
    RunPrefix(OPENING, 1);
    RunPrefix(OPENING, 2);
    assert OPENING[..0] == [] && OPENING[..3] == OPENING;
    assert Run(OPENING[..1]) == Chain(map[1 := INTENT], map[], map[]);
    assert Run(OPENING[..2]) == claimed;
  }

  lemma {:induction false} PickOne(c: Chain, record: Id, max: nat, now: int)
    requires record in c.records && Due(c.records[record], max, now)
    ensures Pick(c, [record], max, now) == [Picked(record, c.records[record].attempts)]
  {
    assert [record][..0] == [];
    assert Pick(c, [], max, now) == [];
  }

  lemma {:induction false} RunAppend(events: seq<Timed>, e: Timed)
    ensures Run(events + [e]) == Step(Run(events), e)
  {
    assert (events + [e])[..|events|] == events;
  }

  /** A confirmed record becomes submitted again between event `i` and the end of the run. */
  ghost predicate Unconfirmed(events: seq<Timed>, i: nat, record: Id) {
    && i <= |events|
    && record in Run(events[..i]).records && Run(events[..i]).records[record].status == Confirmed
    && record in Run(events).records && Run(events).records[record].status == Submitted
  }

  /** The record is written twice from the same reading of it. */
  lemma {:induction false} WrittenTwice(events: seq<Timed>, first: Timed, w: Id, record: Id)
    requires first.event == Resolves(1, Confirmed, 5) || first.event == WritesUnheard(1, Confirmed, 5)
    requires var c := Run(events); Joined(c, record) && BatchOf(c, 1) == BatchOf(c, w) == [Picked(record, 0)]
    requires first.event.Resolves? ==> w != 1
    ensures Unconfirmed(events + [first] + [Timed(4, Resolves(w, Submitted, 5))], |events| + 1, record)
  {
    hide Run;
    var second := Timed(4, Resolves(w, Submitted, 5));
    RunAppend(events, first);
    RunAppend(events + [first], second);
    assert (events + [first] + [second])[..|events| + 1] == events + [first];
  }

  lemma TwoWorkersUnsettle()
    ensures exists events: seq<Timed>, i: nat, record: Id ::
              Unconfirmed(events, i, record) && forall e :: e in events ==> !e.event.WritesUnheard?
  {
    hide Run, Step, Unconfirmed;
    var second, first := Timed(2, Picks(2, [7], 5)), Timed(3, Resolves(1, Confirmed, 5));
    OpeningRun();
    RunAppend(OPENING, second);
    SecondPick(Run(OPENING), second);
    WrittenTwice(OPENING + [second], first, 2, 7);
  }

  lemma SecondPick(c: Chain, second: Timed)
    requires c == Chain(map[1 := BROADCAST], map[7 := RECORD], map[1 := [Picked(7, 0)]])
    requires second == Timed(2, Picks(2, [7], 5))
    ensures var d := Step(c, second); Joined(d, 7) && BatchOf(d, 1) == BatchOf(d, 2) == [Picked(7, 0)]
  {
    PickOne(c, 7, 5, 2);
  }

  lemma LostReplyUnsettles()
    ensures exists events: seq<Timed>, i: nat, record: Id ::
              Unconfirmed(events, i, record) && forall e :: e in events && e.event.Picks? ==> e.event.worker == 1
  {
    hide Run, Step, Unconfirmed;
    OpeningRun();
    WrittenTwice(OPENING, Timed(3, WritesUnheard(1, Confirmed, 5)), 1, 7);
  }
}
