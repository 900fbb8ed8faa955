/** The payment repository as it is written: rows updated in place, proved against PaymentTables method by method. */
module PaymentRepository {
  import opened Prelude
  import opened PaymentStatuses
  import opened PaymentTables
  import opened PaymentWork
  import Tx = Transactions
  import TransactionRepository

  class Repository {
    var operations: map<Id, Operation>
    var byKey: map<(Id, Id), Id>
    var byReference: map<Id, Id>
    var quotes: map<Id, Quote>
    var log: seq<Transition>
    var inbox: seq<Webhook>
    const transactions: TransactionRepository.Repository
    const maxActiveOperationsPerUser: nat

    ghost function Snapshot(): Store
      reads this, transactions
    {
      Store(operations, byKey, byReference, quotes, log, inbox, transactions.Snapshot())
    }

    constructor (transactions: TransactionRepository.Repository, maxActiveOperationsPerUser: nat)
      ensures this.transactions == transactions && this.maxActiveOperationsPerUser == maxActiveOperationsPerUser
      ensures Snapshot() == EmptyStore.(chain := transactions.Snapshot())
    {
      operations, byKey, byReference, quotes, log, inbox := map[], map[], map[], map[], [], [];
      this.transactions := transactions;
      this.maxActiveOperationsPerUser := maxActiveOperationsPerUser;
    }

    method CreateOperation(id: Id, input: Request, userKnown: bool, walletVerified: bool, now: int) returns (reply: Reply)
      modifies this
      ensures (Snapshot(), reply) ==
        PaymentTables.CreateOperation(old(Snapshot()), maxActiveOperationsPerUser, id, input, userKnown, walletVerified, now)
    {
      if !userKnown {
        return UserUnavailable;
      }
      var k := (input.user, input.key);
      if k in byKey && byKey[k] in operations {
        return if operations[byKey[k]].fingerprint != input.fingerprint then IdempotencyConflict else Replayed(byKey[k]);
      }
      if |ActiveOf(operations, input.user)| >= maxActiveOperationsPerUser {
        return PendingLimit;
      }
      if input.account.Some? && !walletVerified {
        return AccountUnavailable;
      }
      if input.quote.Some? {
        var q := input.quote.value;
        if q !in quotes || quotes[q].user != input.user {
          return QuoteNotFound;
        }
        if quotes[q].operationType != input.operationType {
          return QuoteMismatch;
        }
        if quotes[q].consumed || quotes[q].expiresAt <= now {
          return QuoteExpired;
        }
      }
      if id in operations {
        return DuplicateKey;
      }
      operations := operations[id := NewOperation(input, now)];
      byKey := byKey[k := id];
      log := log + [Transition(id, None, Created, Local)];
      if input.quote.Some? {
        quotes := quotes[input.quote.value := quotes[input.quote.value].(consumed := true)];
      }
      reply := Opened(id);
    }

    /** Writes a row, and a line of the audit log when its status changed. */
    method Move(id: Id, row: Operation, source: Source)
      requires id in operations
      modifies `operations, `log
      ensures Snapshot() == Moved(old(Snapshot()), id, row, source)
    {
      var before := operations[id].status;
      operations := operations[id := row];
      if before != row.status {
        log := log + [Transition(id, Some(before), row.status, source)];
      }
    }

    method SetReference(id: Id, reference: Id)
      requires id in operations
      modifies `operations, `byReference
      ensures Snapshot() == WithReference(old(Snapshot()), id, reference)
    {
      var row := operations[id];
      if row.reference.Some? {
        byReference := byReference - {row.reference.value};
      }
      byReference := byReference[reference := id];
      operations := operations[id := row.(reference := Some(reference))];
    }

    /** True for exactly one caller: the one that finds the payment still `created`. */
    method BeginInitiation(id: Id, now: int) returns (reply: Reply)
      modifies this
      ensures (Snapshot(), reply) == PaymentTables.BeginInitiation(old(Snapshot()), id, now)
    {
      if id !in operations {
        return NotFound;
      }
      if operations[id].status != Created {
        return AlreadyBegan;
      }
      var reference := if operations[id].reference.Some? then operations[id].reference.value else id;
      if reference in byReference && byReference[reference] != id {
        return DuplicateKey;
      }
      SetReference(id, reference);
      Move(id, operations[id].(status := Initiating, nextReconcile := Some(now + 20)), Local);
      reply := Began;
    }

    /** The reference is written first and restored when the provider's status is refused. */
    method CompleteInitiation(id: Id, reference: Id, value: string, operationType: OperationType,
                              expiresAt: Option<int>, now: int)
      returns (reply: Reply)
      modifies this
      ensures (Snapshot(), reply) ==
        PaymentTables.CompleteInitiation(old(Snapshot()), id, reference, value, operationType, expiresAt, now)
    {
      hide Normalize, AllowedNext;
      if id !in operations {
        return NotFound;
      }
      var savedOperations, savedReferences := operations, byReference;
      if operations[id].reference != Some(reference) {
        if operations[id].reference != Some(id) {
          return ReferenceConflict;
        }
        if reference in byReference && byReference[reference] != id {
          return DuplicateKey;
        }
        SetReference(id, reference);
      }
      var before := operations[id].status;
      var next := Normalize(value, operationType);
      if before != next && !CanTransition(before, next) {
        operations, byReference := savedOperations, savedReferences;
        return StateConflict;
      }
      Move(id, WithStatus(operations[id], next, now)
             .(expiresAt := expiresAt, reconcileAttempts := 0, nextReconcile := NextPoll(next, now)), Local);
      reply := Ok;
    }

    method RecordInitiationFailure(id: Id, ambiguous: bool, now: int)
      modifies this
      ensures Snapshot() == PaymentTables.RecordInitiationFailure(old(Snapshot()), id, ambiguous, now)
    {
      if id !in operations || operations[id].status != Initiating {
        return;
      }
      var next := if ambiguous then Unknown else Failed;
      Move(id, operations[id].(status := next, nextReconcile := if ambiguous then Some(now) else None, reconcileAttempts := 0),
           Local);
    }

    method BindTransferIntent(user: Id, payment: Id, intent: Id, now: int) returns (reply: Reply)
      modifies `operations
      ensures (Snapshot(), reply) == PaymentTables.BindTransferIntent(old(Snapshot()), user, payment, intent, now)
    {
      if payment !in operations || operations[payment].user != user || operations[payment].operationType != Offramp {
        return NotFound;
      }
      var row := operations[payment];
      if row.intent.Some? {
        return if row.intent.value == intent then Ok else TransferConflict;
      }
      if row.status != AwaitingChain {
        return NotReady;
      }
      if IsDue(row.expiresAt, now) {
        return DepositExpired;
      }
      if intent !in transactions.intents {
        return IntentInvalid;
      }
      var found := transactions.intents[intent];
      if || found.user != user || found.status != Tx.AwaitingSignature || Some(found.account) != row.account
         || Some(found.network) != row.network || found.kind != Tx.PaymentTransfer || found.payment != Some(payment) {
        return IntentInvalid;
      }
      operations := operations[payment := row.(intent := Some(intent))];
      reply := Ok;
    }

    method ApplyProviderStatus(id: Id, value: string, expiresAt: Option<int>, now: int) returns (reply: Reply)
      modifies this
      ensures (Snapshot(), reply) == PaymentTables.ApplyProviderStatus(old(Snapshot()), id, value, expiresAt, now)
    {
      hide Normalize, AllowedNext;
      if id !in operations {
        return NotFound;
      }
      var row := operations[id];
      var next := Normalize(value, row.operationType);
      if row.status != next && !CanTransition(row.status, next) {
        return Ok;
      }
      Move(id, WithStatus(row, next, now).(expiresAt := Coalesce(expiresAt, row.expiresAt), reconcileAttempts := 0,
                                           reconcileLock := None, nextReconcile := NextPoll(next, now)), FromReconciliation);
      reply := Ok;
    }

    method LinkConfirmedChainTransaction(user: Id, payment: Id, record: Id, now: int) returns (reply: Reply)
      modifies this
      ensures (Snapshot(), reply) == PaymentTables.LinkConfirmedChainTransaction(old(Snapshot()), user, payment, record, now)
    {
      hide AllowedNext;
      if payment !in operations || operations[payment].user != user || operations[payment].operationType != Offramp {
        return NotFound;
      }
      var row := operations[payment];
      if row.record == Some(record) {
        return Ok;
      }
      if row.chainTxHash.Some? || row.record.Some? {
        return ChainConflict;
      }
      if row.account.None? || row.network.None? || row.intent.None? {
        return AccountUnavailable;
      }
      if record !in transactions.records {
        return NotConfirmed;
      }
      var found := transactions.records[record];
      if || found.user != user || found.status != Tx.Confirmed || Some(found.account) != row.account
         || Some(found.network) != row.network || Some(found.intent) != row.intent {
        return NotConfirmed;
      }
      if row.status != ChainSubmitted && !CanTransition(row.status, ChainSubmitted) {
        return StateConflict;
      }
      Move(payment, row.(status := ChainSubmitted, chainTxHash := Some(found.txHash), intent := Some(found.intent),
                         record := Some(record), nextConfirmation := Some(now), confirmationAttempts := 0,
                         acknowledged := None, nextReconcile := Some(now)), Local);
      reply := Ok;
    }

    method StoreVerifiedWebhook(digest: Id, reference: Id, operationType: OperationType, value: string, now: int)
      returns (reply: Reply)
      modifies `inbox
      ensures (Snapshot(), reply) == StoreWebhook(old(Snapshot()), digest, reference, operationType, value, now)
    {
      if reference !in byReference || byReference[reference] !in operations {
        return NotFound;
      }
      var id := byReference[reference];
      if operations[id].operationType != operationType {
        return WebhookMismatch;
      }
      if exists i :: 0 <= i < |inbox| && inbox[i].digest == digest {
        return Duplicate;
      }
      inbox := inbox + [Webhook(id, digest, value, Pending, 0, Some(now), None)];
      reply := Ok;
    }

    /** The batch is read first, oldest first; then each webhook is applied, or left for a retry or for review. */
    method ProcessWebhookBatch(limit: nat, maxAttempts: nat, now: int) returns (processed: nat)
      modifies this
      ensures Snapshot() == PaymentTables.ProcessWebhookBatch(old(Snapshot()), limit, maxAttempts, now)
      ensures processed == |DueWebhooks(old(inbox), limit, now)|
    {
      hide ProcessWebhook;
      var rows: seq<nat> := [];
      for i := 0 to |inbox|
        invariant rows == DueWebhooks(inbox[..i], limit, now)
      {
        assert inbox[..i + 1][..i] == inbox[..i];
        if |rows| < limit && WebhookDue(inbox[i], now) {
          rows := rows + [i];
        }
      }
      assert inbox[..|inbox|] == inbox;
      ghost var s := Snapshot();
      for k := 0 to |rows|
        invariant Snapshot() == ProcessAll(s, rows[..k], maxAttempts, now)
      {
        assert rows[..k + 1][..k] == rows[..k];
        ProcessOne(rows[k], maxAttempts, now);
      }
      assert rows[..|rows|] == rows;
      processed := |rows|;
    }

    method ProcessOne(i: nat, maxAttempts: nat, now: int)
      requires i < |inbox|
      modifies this
      ensures Snapshot() == ProcessWebhook(old(Snapshot()), i, maxAttempts, now)
    {
      hide Normalize, AllowedNext, RetryDelay;
      var hook := inbox[i];
      var attempts := hook.attempts + 1;
      if hook.operation !in operations {
        var failed := if attempts >= maxAttempts then hook.(state := InReview, nextAttempt := None)
                      else hook.(nextAttempt := Some(now + RetryDelay(attempts)));
        inbox := inbox[i := failed.(attempts := attempts, lock := None)];
        return;
      }
      var row := operations[hook.operation];
      var next := Normalize(hook.value, row.operationType);
      if row.status != next && CanTransition(row.status, next) {
        Move(hook.operation, WithStatus(row, next, now).(reconcileAttempts := 0, nextReconcile := NextPoll(next, now)), FromWebhook);
      }
      inbox := inbox[i := hook.(state := Processed, attempts := attempts, lock := None)];
    }

    method ClaimReconciliationBatch(ids: seq<Id>, lockSeconds: nat, now: int) returns (claimed: seq<Work>)
      modifies `operations
      ensures Snapshot() == ClaimReconciliation(old(Snapshot()), ids, lockSeconds, now)
      ensures claimed == DueWork(old(operations), ids, now)
    {
      hide Reconcilable, Claimed;
      claimed := [];
      ghost var s := Snapshot();
      for i := 0 to |ids|
        invariant Snapshot() == ClaimReconciliation(s, ids[..i], lockSeconds, now)
        invariant claimed == DueWork(s.operations, ids[..i], now)
      {
        assert ids[..i + 1][..i] == ids[..i];
        var id := ids[i];
        ClaimLocks(s, ids[..i], lockSeconds, now, id);
        if id in operations {
          LockedIsBusy(s.operations[id], lockSeconds, now, now);
          if Reconcilable(operations[id], now) {
            operations := operations[id := operations[id].(reconcileLock := Some(now + lockSeconds))];
            claimed := claimed + [Work(id, operations[id].reconcileAttempts)];
          }
        }
      }
      assert ids[..|ids|] == ids;
    }

    method RecordReconciliation(id: Id, value: Option<string>, attempt: nat, maxAttempts: nat, retryAt: int,
                                expiresAt: Option<int>, now: int)
      modifies `operations, `log
      ensures Snapshot() ==
        PaymentTables.RecordReconciliation(old(Snapshot()), id, value, attempt, maxAttempts, retryAt, expiresAt, now)
    {
      hide Normalize, AllowedNext;
      if id !in operations {
        return;
      }
      var row := operations[id];
      var next := row.status;
      if value.Some? && value.value != "" {
        next := Normalize(value.value, row.operationType);
      }
      if attempt >= maxAttempts && !IsTerminal(next) {
        next := ManualReview;
      }
      var polled := row.(expiresAt := Coalesce(expiresAt, row.expiresAt), reconcileAttempts := attempt, reconcileLock := None);
      if row.status != next && CanTransition(row.status, next) {
        Move(id, WithStatus(polled, next, now).(nextReconcile := if IsTerminal(next) then None else Some(retryAt)), FromReconciliation);
      } else {
        Move(id, polled.(nextReconcile := if IsTerminal(row.status) then None else Some(retryAt)), FromReconciliation);
      }
    }

    method ClaimConfirmationBatch(ids: seq<Id>, lockSeconds: nat, now: int)
      modifies `operations
      ensures Snapshot() == ClaimConfirmation(old(Snapshot()), ids, lockSeconds, now)
    {
      for i := 0 to |ids|
        invariant Snapshot() == ClaimConfirmation(old(Snapshot()), ids[..i], lockSeconds, now)
      {
        assert ids[..i + 1][..i] == ids[..i];
        var id := ids[i];
        if id in operations && Confirmable(operations[id], now) {
          operations := operations[id := operations[id].(confirmationLock := Some(now + lockSeconds))];
        }
      }
      assert ids[..|ids|] == ids;
    }

    method RecordConfirmationAttempt(id: Id, acknowledged: bool, attempt: nat, retryAt: Option<int>,
                                     maxAttempts: nat, now: int)
      modifies `operations, `log
      ensures Snapshot() ==
        PaymentTables.RecordConfirmationAttempt(old(Snapshot()), id, acknowledged, attempt, retryAt, maxAttempts, now)
    {
      if id !in operations {
        return;
      }
      var row := operations[id].(confirmationAttempts := attempt, confirmationLock := None);
      if acknowledged {
        operations := operations[id := row.(acknowledged := Some(now), nextConfirmation := None)];
        return;
      }
      var before := row.status;
      var needsReview := attempt >= maxAttempts && !IsTerminal(before);
      operations := operations[id := row.(nextConfirmation := if needsReview then None else retryAt,
                                          status := if needsReview then ManualReview else before)];
      if needsReview && CanTransition(before, ManualReview) {
        log := log + [Transition(id, Some(before), ManualReview, FromConfirmation)];
      }
    }

    method SaveQuote(id: Id, quote: Quote)
      modifies `quotes
      ensures Snapshot() == PaymentTables.SaveQuote(old(Snapshot()), id, quote)
    {
      if id !in quotes {
        quotes := quotes[id := quote.(consumed := false)];
      }
    }

    /** Any step that is not part of serving a request, the steps of the transaction tables included. */
    method Perform(act: Background, now: int)
      modifies this, transactions
      ensures Snapshot() == Act(old(Snapshot()), act, now)
    {
      hide PaymentTables.BindTransferIntent, PaymentTables.ApplyProviderStatus, StoreWebhook, ClaimReconciliation,
        PaymentTables.ProcessWebhookBatch, PaymentTables.RecordReconciliation, ClaimConfirmation, Tx.Step,
        PaymentTables.RecordConfirmationAttempt, PaymentTables.LinkConfirmedChainTransaction, PaymentTables.SaveQuote;
      match act
      case SavesQuote(quote, terms) => SaveQuote(quote, terms);
      case Binds(user, payment, intent) => var _ := BindTransferIntent(user, payment, intent, now);
      case Applies(payment, value, expiresAt) => var _ := ApplyProviderStatus(payment, value, expiresAt, now);
      case StoresWebhook(digest, reference, operationType, value) =>
        var _ := StoreVerifiedWebhook(digest, reference, operationType, value, now);
      case ProcessesWebhooks(limit, maxAttempts) => var _ := ProcessWebhookBatch(limit, maxAttempts, now);
      case ClaimsReconciliation(ids, lockSeconds) => var _ := ClaimReconciliationBatch(ids, lockSeconds, now);
      case Reconciles(payment, answer, attempt, maxAttempts, retryAt, expiresAt) =>
        RecordReconciliation(payment, answer, attempt, maxAttempts, retryAt, expiresAt, now);
      case ClaimsConfirmation(ids, lockSeconds) => ClaimConfirmationBatch(ids, lockSeconds, now);
      case Confirms(payment, acknowledged, attempt, next, maxAttempts) =>
        RecordConfirmationAttempt(payment, acknowledged, attempt, next, maxAttempts, now);
      case Links(user, payment, record) => var _ := LinkConfirmedChainTransaction(user, payment, record, now);
      case OnChain(step) => transactions.Apply(Tx.Timed(now, step));
    }
  }
}
