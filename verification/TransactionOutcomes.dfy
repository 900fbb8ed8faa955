/** What each step on signed transfers comes to, and that an intent follows the record of its broadcast. */
module TransactionOutcomes {
  import opened Prelude
  import opened Transactions

  /** The intent is the user's, waits for a signature or an approval, and has not run out. */
  predicate Open(c: Chain, id: Id, user: Id, now: int) {
    && id in c.intents && c.intents[id].user == user && now < c.intents[id].expiresAt
    && (c.intents[id].status == AwaitingSignature || c.intents[id].status == AwaitingApproval)
  }

  /** No record has this identifier, belongs to this intent, or has this hash on the intent's network. */
  ghost predicate Unused(c: Chain, id: Id, record: Id, txHash: Id)
    requires id in c.intents
  {
    && record !in c.records
    && forall r :: r in c.records ==>
         c.records[r].intent != id && !(c.records[r].network == c.intents[id].network && c.records[r].txHash == txHash)
  }

  /** The one caller of an open intent gets to broadcast it; intent and record are written together. */
  lemma ClaimMeans(c: Chain, id: Id, user: Id, record: Id, txHash: Id, now: int)
    ensures var (d, reply) := Claim(c, id, user, record, txHash, now);
            && (reply == Claimed <==> Open(c, id, user, now) && Unused(c, id, record, txHash))
            && (reply != Claimed ==> d == c)
            && (reply == AlreadyRecorded <==>
                  && !Open(c, id, user, now)
                  && exists r :: r in c.records && c.records[r].user == user && c.records[r].intent == id)
            && (reply == Claimed ==>
                  var intent := c.intents[id];
                  && d.intents == c.intents[id := intent.(status := IntentBroadcasting)] && d.batches == c.batches
                  && d.records == c.records[record := Record(id, intent.user, intent.account, intent.network, txHash,
                                                             Broadcasting, 0, Some(now))])
  {
  }

  /** What a broadcast came to is written once, on record and intent, while the record is still being broadcast. */
  lemma BroadcastMeans(c: Chain, record: Id, now: int)
    requires record in c.records && c.records[record].intent in c.intents
    ensures var row := c.records[record];
            var sent, lost := MarkBroadcast(c, record, now), MarkBroadcastUnknown(c, record, now);
            if row.status != Broadcasting then sent == c && lost == c
            else
              && sent == c.(records := c.records[record := row.(status := Submitted, nextReconcile := Some(now))],
                            intents := c.intents[row.intent := c.intents[row.intent].(status := IntentSubmitted)])
              && lost == c.(records := c.records[record := row.(status := Unknown, nextReconcile := Some(now + 15))],
                            intents := c.intents[row.intent := c.intents[row.intent].(status := IntentUnknown)])
  {
  }

  /**
   * An answer is written whatever the record is by then. Confirmed, failed and dropped are final; anything else becomes
   * unknown at the last attempt, and until then is looked at again after 15 seconds doubled with each of up to four
   * attempts. The intent hears of confirmation and failure only.
   */
  lemma AnswerMeans(c: Chain, record: Id, status: RecordStatus, attempts: nat, max: nat, now: int)
    requires record in c.records && c.records[record].intent in c.intents
    ensures var row := c.records[record]; var d := Reconcile(c, record, status, attempts, max, now);
            var final := status == Confirmed || status == Failed || status == Dropped;
            && record in d.records && d.records == c.records[record := d.records[record]] && d.batches == c.batches
            && d.records[record] == row.(status := if !final && attempts >= max then Unknown else status, attempts := attempts,
                                         nextReconcile := if final || attempts >= max then None
                                                          else Some(now + Backoff(attempts)))
            && d.intents == c.intents[row.intent := c.intents[row.intent].(
                                        status := if status == Confirmed then IntentConfirmed
                                                  else if status == Failed then IntentFailed
                                                  else c.intents[row.intent].status)]
  {
    hide Backoff;
    assert c.intents[c.records[record].intent := c.intents[c.records[record].intent]] == c.intents;
  }

  lemma DelaysMean(attempts: nat)
    ensures Backoff(0) == 15
    ensures attempts < 4 ==> Backoff(attempts + 1) == 2 * Backoff(attempts)
    ensures attempts >= 4 ==> Backoff(attempts) == 240
  {
    assert PowerOfTwo(4) == 2 * PowerOfTwo(3) == 16;
  }

  /** Looked at: still open, attempts left, and its time has come or it has none. */
  lemma DueMeans(row: Record, max: nat, now: int)
    ensures Due(row, max, now) <==>
            && (row.status == Broadcasting || row.status == Submitted || row.status == Unknown) && row.attempts < max
            && (row.nextReconcile == None || exists at :: row.nextReconcile == Some(at) && at <= now)
  {
  }

  /** A batch lists exactly the due records looked at, each once, with the attempts it has had. */
  lemma {:induction false} BatchMeans(c: Chain, ids: seq<Id>, max: nat, now: int)
    ensures var batch := Pick(c, ids, max, now);
            && (forall p :: p in batch ==> p.record in c.records && p.attempts == c.records[p.record].attempts)
            && (forall j, k :: 0 <= j < k < |batch| ==> batch[j].record != batch[k].record)
            && (forall id :: (exists p :: p in batch && p.record == id) <==>
                  id in ids && id in c.records && Due(c.records[id], max, now))
  {
    hide Due;
    if ids != [] {
      var init, last := ids[..|ids| - 1], ids[|ids| - 1];
      assert ids == init + [last];
      BatchMeans(c, init, max, now);
      var earlier, batch := Pick(c, init, max, now), Pick(c, ids, max, now);
      if batch != earlier {
        assert batch == earlier + [Picked(last, c.records[last].attempts)];
        assert Picked(last, c.records[last].attempts) in batch;
        assert forall p :: p in earlier ==> p in batch;
        forall j | 0 <= j < |earlier| ensures earlier[j].record != last {
          assert earlier[j] in earlier && !Listed(earlier, last);
        }
      } else if last in c.records && Due(c.records[last], max, now) {
        assert Listed(earlier, last);
      }
    }
  }

  // Intents follow records.

  /** Where a record is confirmed or failed, its intent is too; while it is broadcast, so is its intent. */
  ghost predicate Follows(c: Chain) {
    forall r :: r in c.records && c.records[r].intent in c.intents ==>
      var record, intent := c.records[r].status, c.intents[c.records[r].intent].status;
      && (record == Confirmed ==> intent == IntentConfirmed)
      && (record == Failed ==> intent == IntentFailed)
      && (record == Broadcasting ==> intent == IntentBroadcasting)
  }

  lemma StepFollows(c: Chain, e: Timed)
    requires Linked(c) && Follows(c)
    ensures Follows(Step(c, e))
  {
    hide Pick, Backoff;
    match e.event
    case Creates(id, intent) =>
    case Claims(id, user, record, txHash) => ClaimFollows(c, id, user, record, txHash, e.now);
    case Broadcasts(record) =>
    case LosesBroadcast(record) =>
    case Picks(worker, ids, max) =>
    case Resolves(worker, status, max) => WriteFollows(c, worker, status, max, e.now);
    case WritesUnheard(worker, status, max) => WriteFollows(c, worker, status, max, e.now);
    case Skips(worker) =>
  }

  lemma ClaimFollows(c: Chain, id: Id, user: Id, record: Id, txHash: Id, now: int)
    requires Linked(c) && Follows(c)
    ensures Follows(Claim(c, id, user, record, txHash, now).0)
  {
    ClaimMeans(c, id, user, record, txHash, now);
  }

  lemma WriteFollows(c: Chain, worker: Id, status: RecordStatus, max: nat, now: int)
    requires Linked(c) && Follows(c)
    ensures Follows(WriteBack(c, worker, status, max, now))
  {
    hide Backoff, Reconcile;
    var batch := BatchOf(c, worker);
    if batch != [] && status != Broadcasting {
      if Joined(c, batch[0].record) {
        AnswerMeans(c, batch[0].record, status, batch[0].attempts + 1, max, now);
      } else {
        NotJoined(c, batch[0].record, status, batch[0].attempts + 1, max, now);
      }
    }
  }

  lemma NotJoined(c: Chain, record: Id, status: RecordStatus, attempts: nat, max: nat, now: int)
    requires !Joined(c, record)
    ensures Reconcile(c, record, status, attempts, max, now) == c
  {
  }

  lemma {:induction false} RunFollows(events: seq<Timed>)
    ensures Follows(Run(events))
  {
    hide Step, Linked;
    if events != [] {
      RunFollows(events[..|events| - 1]);
      RunLinked(events[..|events| - 1]);
      StepFollows(Run(events[..|events| - 1]), events[|events| - 1]);
    }
  }

  /** In every run an intent says confirmed where its record does, failed where that does, and broadcasting until then. */
  lemma {:induction false} IntentFollowsRecord(events: seq<Timed>, record: Id)
    requires record in Run(events).records
    ensures var c := Run(events); var row := c.records[record];
            && row.intent in c.intents && var status := c.intents[row.intent].status;
               && (row.status == Confirmed ==> status == IntentConfirmed)
               && (row.status == Failed ==> status == IntentFailed)
               && (row.status == Broadcasting ==> status == IntentBroadcasting)
  {
    hide Run;
    RunLinked(events);
    RunFollows(events);
  }
}
