/** The transaction repository as it is written, proved against Transactions. */
module TransactionRepository {
  import opened Prelude
  import opened Transactions

  class Repository {
    var intents: map<Id, Intent>
    var records: map<Id, Record>
    // What each reconciliation worker has read and not yet written back.
    var batches: map<Id, seq<Picked>>

    ghost function Snapshot(): Chain
      reads this
    {
      Chain(intents, records, batches)
    }

    constructor ()
      ensures Snapshot() == EmptyChain
    {
      intents, records, batches := map[], map[], map[];
    }

    /** Only the caller that is told `Claimed` may broadcast. */
    method Claim(id: Id, user: Id, record: Id, txHash: Id, now: int) returns (reply: ClaimReply)
      modifies this
      ensures (Snapshot(), reply) == Transactions.Claim(old(Snapshot()), id, user, record, txHash, now)
    {
      if id !in intents || !Submittable(intents[id], user, now) {
        var existing := exists r :: r in records && records[r].user == user && records[r].intent == id;
        return if existing then AlreadyRecorded else NotSubmittable;
      }
      var intent := intents[id];
      if record in records
         || exists r :: r in records
              && (records[r].intent == id || (records[r].network == intent.network && records[r].txHash == txHash)) {
        return DuplicateKey;
      }
      intents := intents[id := intent.(status := IntentBroadcasting)];
      records := records[record := Record(id, intent.user, intent.account, intent.network, txHash, Broadcasting, 0, Some(now))];
      reply := Claimed;
    }

    method Write(record: Id, row: Record, status: IntentStatus)
      requires record in records && row.intent in intents
      modifies `intents, `records
      ensures Snapshot() == Written(old(Snapshot()), record, row, status)
    {
      records := records[record := row];
      intents := intents[row.intent := intents[row.intent].(status := status)];
    }

    method MarkBroadcast(record: Id, now: int)
      modifies `intents, `records
      ensures Snapshot() == Transactions.MarkBroadcast(old(Snapshot()), record, now)
    {
      if record in records && records[record].intent in intents && records[record].status == Broadcasting {
        Write(record, records[record].(status := Submitted, nextReconcile := Some(now)), IntentSubmitted);
      }
    }

    method MarkBroadcastUnknown(record: Id, now: int)
      modifies `intents, `records
      ensures Snapshot() == Transactions.MarkBroadcastUnknown(old(Snapshot()), record, now)
    {
      if record in records && records[record].intent in intents && records[record].status == Broadcasting {
        Write(record, records[record].(status := Unknown, nextReconcile := Some(now + 15)), IntentUnknown);
      }
    }

    method ReconciliationBatch(ids: seq<Id>, max: nat, now: int) returns (batch: seq<Picked>)
      ensures batch == Pick(Snapshot(), ids, max, now)
    {
      batch := [];
      for i := 0 to |ids|
        invariant batch == Pick(Snapshot(), ids[..i], max, now)
      {
        assert ids[..i + 1][..i] == ids[..i];
        var id := ids[i];
        if id in records && Due(records[id], max, now) && !Listed(batch, id) {
          batch := batch + [Picked(id, records[id].attempts)];
        }
      }
      assert ids[..|ids|] == ids;
    }

    method Reconcile(record: Id, status: RecordStatus, attempts: nat, max: nat, now: int)
      modifies `intents, `records
      ensures Snapshot() == Transactions.Reconcile(old(Snapshot()), record, status, attempts, max, now)
    {
      if record !in records || records[record].intent !in intents {
        return;
      }
      var row := records[record];
      var terminal := !Live(status);
      var final := status;
      if !terminal && attempts >= max {
        final := Unknown;
      }
      var next := if terminal || attempts >= max then None else Some(now + Backoff(attempts));
      var intent := intents[row.intent].status;
      if final == Confirmed {
        intent := IntentConfirmed;
      } else if final == Failed {
        intent := IntentFailed;
      }
      Write(record, row.(status := final, attempts := attempts, nextReconcile := next), intent);
    }

    /** A worker's tick begins: nothing is read while the last batch is unfinished. */
    method StartTick(worker: Id, ids: seq<Id>, max: nat, now: int)
      modifies `batches
      ensures Snapshot() == Step(old(Snapshot()), Timed(now, Picks(worker, ids, max)))
    {
      var running := worker in batches && batches[worker] != [];
      if running {
        return;
      }
      var batch := ReconciliationBatch(ids, max, now);
      batches := batches[worker := batch];
    }

    /** The worker writes back the next record it holds, and may never hear that it did. */
    method WriteBack(worker: Id, status: RecordStatus, max: nat, now: int)
      requires status != Broadcasting
      modifies `intents, `records
      ensures Snapshot() == Step(old(Snapshot()), Timed(now, WritesUnheard(worker, status, max)))
    {
      if worker in batches && batches[worker] != [] {
        var next := batches[worker][0];
        Reconcile(next.record, status, next.attempts + 1, max, now);
      }
    }

    method One(worker: Id, status: RecordStatus, max: nat, now: int)
      requires status != Broadcasting
      modifies this
      ensures Snapshot() == Step(old(Snapshot()), Timed(now, Resolves(worker, status, max)))
    {
      WriteBack(worker, status, max, now);
      if worker in batches && batches[worker] != [] {
        batches := batches[worker := batches[worker][1..]];
      }
    }

    /** Nothing could be written, and the worker goes on to the next record. */
    method Skip(worker: Id, now: int)
      modifies `batches
      ensures Snapshot() == Step(old(Snapshot()), Timed(now, Skips(worker)))
    {
      if worker in batches && batches[worker] != [] {
        batches := batches[worker := batches[worker][1..]];
      }
    }

    /** An intent is stored by the services that prepare transactions. */
    method CreateIntent(id: Id, intent: Intent)
      modifies `intents
      ensures Snapshot() == Transactions.CreateIntent(old(Snapshot()), id, intent)
    {
      if id !in intents && Unsigned(intent) {
        intents := intents[id := intent];
      }
    }

    method Apply(event: Timed)
      modifies this
      ensures Snapshot() == Step(old(Snapshot()), event)
    {
      hide Transactions.Claim, Transactions.MarkBroadcast, Transactions.MarkBroadcastUnknown, Transactions.CreateIntent;
      match event.event
      case Creates(id, intent) => CreateIntent(id, intent);
      case Claims(id, user, record, txHash) => var _ := Claim(id, user, record, txHash, event.now);
      case Broadcasts(record) => MarkBroadcast(record, event.now);
      case LosesBroadcast(record) => MarkBroadcastUnknown(record, event.now);
      case Picks(worker, ids, max) => StartTick(worker, ids, max, event.now);
      case Resolves(worker, status, max) => if status != Broadcasting { One(worker, status, max, event.now); }
      case WritesUnheard(worker, status, max) => if status != Broadcasting { WriteBack(worker, status, max, event.now); }
      case Skips(worker) => Skip(worker, event.now);
    }

    /** Whatever arrives, in whatever order, the repository is in the state the run gives. */
    method Perform(event: Timed, ghost events: seq<Timed>)
      requires Snapshot() == Run(events)
      modifies this
      ensures Snapshot() == Run(events + [event])
    {
      hide Step;
      RunAppend(events, event);
      Apply(event);
    }
  }
}
