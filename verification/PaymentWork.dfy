/** What the reconciliation worker takes on in one pass, and what it leaves behind. */
module PaymentWork {
  import opened Prelude
  import opened PaymentStatuses
  import opened PaymentTables

  /** A payment handed to the worker, with the attempts it had been given. */
  datatype Work = Work(operation: Id, attempts: nat)

  predicate Claimed(work: seq<Work>, id: Id) {
    exists w :: w in work && w.operation == id
  }

  /** The due payments among `ids`, each once. */
  function DueWork(operations: map<Id, Operation>, ids: seq<Id>, now: int): seq<Work> {
    if ids == [] then [] else
      var earlier, id := DueWork(operations, ids[..|ids| - 1], now), ids[|ids| - 1];
      if id in operations && Reconcilable(operations[id], now) && !Claimed(earlier, id)
      then earlier + [Work(id, operations[id].reconcileAttempts)] else earlier
  }

  lemma ClaimedAppend(work: seq<Work>, w: Work, id: Id)
    ensures Claimed(work + [w], id) <==> Claimed(work, id) || id == w.operation
  {
    assert w in work + [w];
    assert forall x :: x in work ==> x in work + [w];
  }

  /** Exactly the due payments are claimed, each once, and locked; the others are left as they were. */
  lemma {:induction false} ClaimLocks(s: Store, ids: seq<Id>, lockSeconds: nat, now: int, id: Id)
    ensures var t := ClaimReconciliation(s, ids, lockSeconds, now);
            && t == s.(operations := t.operations) && t.operations.Keys == s.operations.Keys
            && (id in s.operations ==>
                  t.operations[id] == if Claimed(DueWork(s.operations, ids, now), id)
                                      then s.operations[id].(reconcileLock := Some(now + lockSeconds)) else s.operations[id])
    ensures Claimed(DueWork(s.operations, ids, now), id) <==>
            id in ids && id in s.operations && Reconcilable(s.operations[id], now)
  {
    hide Reconcilable, Claimed;
    if ids == [] {
      NothingClaimed(id);
    } else {
      var init, last := ids[..|ids| - 1], ids[|ids| - 1];
      assert ids == init + [last];
      ClaimLocks(s, init, lockSeconds, now, id);
      ClaimLocks(s, init, lockSeconds, now, last);
      if last in s.operations {
        ClaimedAppend(DueWork(s.operations, init, now), Work(last, s.operations[last].reconcileAttempts), id);
        LockedIsBusy(s.operations[last], lockSeconds, now, now);
      }
    }
  }

  lemma NothingClaimed(id: Id)
    ensures !Claimed([], id)
  {
  }

  /** A locked payment is not handed out again until the lock has run out. */
  lemma LockedIsBusy(row: Operation, lockSeconds: nat, now: int, later: int)
    requires now <= later <= now + lockSeconds
    ensures !Reconcilable(row.(reconcileLock := Some(now + lockSeconds)), later)
  {
  }

  ghost predicate EachOnce(work: seq<Work>) {
    forall i, j :: 0 <= i < j < |work| ==> work[i].operation != work[j].operation
  }

  ghost predicate Faithful(operations: map<Id, Operation>, work: seq<Work>) {
    forall w :: w in work ==> w.operation in operations && w.attempts == operations[w.operation].reconcileAttempts
  }

  /** No payment is claimed twice in one pass, and each is claimed with the attempts it had. */
  lemma {:induction false} WorkIsDistinct(operations: map<Id, Operation>, ids: seq<Id>, now: int)
    ensures Faithful(operations, DueWork(operations, ids, now)) && EachOnce(DueWork(operations, ids, now))
  {
    hide Reconcilable;
    if ids != [] {
      var earlier, work := DueWork(operations, ids[..|ids| - 1], now), DueWork(operations, ids, now);
      WorkIsDistinct(operations, ids[..|ids| - 1], now);
      if work != earlier {
        var id := ids[|ids| - 1];
        assert work == earlier + [Work(id, operations[id].reconcileAttempts)];
        forall i | 0 <= i < |earlier| ensures earlier[i].operation != id {
          assert earlier[i] in earlier;
        }
      }
    }
  }

  /** What the provider answers about each payment; no entry when the call failed or made no sense. */
  datatype Answer = Answer(value: string, expiresAt: Option<int>)

  function PollOf(row: Operation, attempts: nat, answers: map<Id, Answer>, id: Id, maxAttempts: nat,
                  now: int): Operation {
    var attempt := attempts + 1;
    var retryAt := now + RetryDelay(attempt);
    if id in answers
    then Reconciled(row, Some(answers[id].value), attempt, maxAttempts, retryAt, answers[id].expiresAt, now)
    else Reconciled(row, None, attempt, maxAttempts, retryAt, None, now)
  }

  /** The tables after the worker has recorded every poll of its batch, in order. */
  function Polled(s: Store, work: seq<Work>, answers: map<Id, Answer>, maxAttempts: nat, now: int): Store {
    if work == [] then s else
      var t, w := Polled(s, work[..|work| - 1], answers, maxAttempts, now), work[|work| - 1];
      if w.operation !in t.operations then t
      else Moved(t, w.operation, PollOf(t.operations[w.operation], w.attempts, answers, w.operation, maxAttempts, now),
                 FromReconciliation)
  }

  /** Each payment of a batch is polled once, as it stood when the batch began; no other payment changes. */
  lemma {:induction false} PolledOnce(s: Store, work: seq<Work>, answers: map<Id, Answer>, maxAttempts: nat,
                                      now: int, id: Id)
    requires EachOnce(work) && id in s.operations
    ensures var t := Polled(s, work, answers, maxAttempts, now);
            && t.operations.Keys == s.operations.Keys
            && (!Claimed(work, id) ==> t.operations[id] == s.operations[id])
            && (forall w :: w in work && w.operation == id ==>
                  t.operations[id] == PollOf(s.operations[id], w.attempts, answers, id, maxAttempts, now))
  {
    hide PollOf, Claimed;
    if work != [] {
      var init, last := work[..|work| - 1], work[|work| - 1];
      assert work == init + [last];
      PolledOnce(s, init, answers, maxAttempts, now, id);
      ClaimedAppend(init, last, id);
      if last.operation == id {
        NotBefore(init, last);
      }
    }
  }

  lemma NotBefore(init: seq<Work>, last: Work)
    requires EachOnce(init + [last])
    ensures !Claimed(init, last.operation)
    ensures forall w :: w in init ==> w.operation != last.operation
  {
    forall w | w in init ensures w.operation != last.operation {
      var i :| 0 <= i < |init| && init[i] == w;
      assert (init + [last])[i] == w && (init + [last])[|init|] == last;
    }
  }

  /** A whole pass: every due payment gets exactly one more attempt, judged by its own answer, and its lock back. */
  lemma {:induction false} PassPollsDueOnce(s: Store, ids: seq<Id>, answers: map<Id, Answer>, lockSeconds: nat,
                                            maxAttempts: nat, now: int, id: Id)
    requires id in s.operations
    ensures var t := Polled(ClaimReconciliation(s, ids, lockSeconds, now), DueWork(s.operations, ids, now), answers, maxAttempts, now);
            && id in t.operations
            && t.operations[id] == if id in ids && Reconcilable(s.operations[id], now)
                                   then PollOf(s.operations[id], s.operations[id].reconcileAttempts, answers, id, maxAttempts, now)
                                   else s.operations[id]
  {
    hide Polled, ClaimReconciliation, DueWork, Reconcilable, Reconciled, RetryDelay, Claimed;
    var locked, work := ClaimReconciliation(s, ids, lockSeconds, now), DueWork(s.operations, ids, now);
    ClaimLocks(s, ids, lockSeconds, now, id);
    WorkIsDistinct(s.operations, ids, now);
    PolledOnce(locked, work, answers, maxAttempts, now, id);
    if Claimed(work, id) {
      ClaimedWitness(work, id);
      LockForgotten(s.operations[id], s.operations[id].reconcileAttempts, answers, id, maxAttempts, now, now + lockSeconds);
    }
  }

  lemma ClaimedWitness(work: seq<Work>, id: Id)
    requires Claimed(work, id)
    ensures exists w :: w in work && w.operation == id
  {
  }

  lemma LockForgotten(row: Operation, attempts: nat, answers: map<Id, Answer>, id: Id, maxAttempts: nat, now: int,
                      until: int)
    ensures PollOf(row.(reconcileLock := Some(until)), attempts, answers, id, maxAttempts, now)
         == PollOf(row, attempts, answers, id, maxAttempts, now)
  {
    hide Normalize, AllowedNext, RetryDelay;
  }
}
