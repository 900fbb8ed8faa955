/**
 * The payment tables and what each repository transaction does to them: one function per transaction, which either
 * returns changed tables or refuses and returns them as they were. Times are seconds; the clock is an argument.
 */
module PaymentTables {
  import opened Prelude
  import opened PaymentStatuses
  import Tx = Transactions

  /** A keyed digest of the request, taken to be injective: it says exactly what was asked, and in which direction. */
  datatype Fingerprint = Fingerprint(operationType: OperationType, material: Id)

  datatype Operation = Operation(
    user: Id, operationType: OperationType, key: Id, fingerprint: Fingerprint, quote: Option<Id>, account: Option<Id>,
    network: Option<Id>, status: Status, reference: Option<Id>, expiresAt: Option<int>, completedAt: Option<int>,
    reconcileAttempts: nat, nextReconcile: Option<int>, reconcileLock: Option<int>,
    confirmationAttempts: nat, nextConfirmation: Option<int>, confirmationLock: Option<int>, acknowledged: Option<int>,
    chainTxHash: Option<Id>, intent: Option<Id>, record: Option<Id>)

  datatype Quote = Quote(user: Id, operationType: OperationType, expiresAt: int, consumed: bool)
  datatype Source = Local | FromWebhook | FromReconciliation | FromConfirmation
  datatype Transition = Transition(operation: Id, from: Option<Status>, to: Status, source: Source)
  datatype WebhookState = Pending | Processed | InReview
  datatype Webhook = Webhook(operation: Id, digest: Id, value: string, state: WebhookState, attempts: nat,
                             nextAttempt: Option<int>, lock: Option<int>)

  /** `byKey` and `byReference` are the unique indexes on (user, idempotency key) and on the provider's reference. */
  datatype Store = Store(
    operations: map<Id, Operation>,
    byKey: map<(Id, Id), Id>,
    byReference: map<Id, Id>,
    quotes: map<Id, Quote>,
    log: seq<Transition>,
    inbox: seq<Webhook>,
    chain: Tx.Chain)

  const EmptyStore := Store(map[], map[], map[], map[], [], [], Tx.EmptyChain)

  datatype Reply =
    | Ok
    | Opened(id: Id)
    | Replayed(id: Id)
    | Began
    | AlreadyBegan
    | Duplicate
    | UserUnavailable
    | IdempotencyConflict
    | PendingLimit
    | AccountUnavailable
    | QuoteNotFound
    | QuoteMismatch
    | QuoteExpired
    | NotFound
    | ReferenceConflict
    | StateConflict
    | TransferConflict
    | NotReady
    | DepositExpired
    | IntentInvalid
    | ChainConflict
    | NotConfirmed
    | WebhookMismatch
    | DuplicateKey

  datatype Request = Request(
    user: Id, operationType: OperationType, key: Id, fingerprint: Fingerprint, quote: Option<Id>, account: Option<Id>,
    network: Option<Id>, expiresAt: Option<int>)

  predicate IsDue(at: Option<int>, now: int) {
    at.Some? && at.value <= now
  }

  predicate Free(lock: Option<int>, now: int) {
    lock.Some? ==> lock.value < now
  }

  function Coalesce(a: Option<int>, b: Option<int>): Option<int> {
    if a.Some? then a else b
  }

  /** The row with a new status; a first completion is dated. */
  function WithStatus(row: Operation, status: Status, now: int): Operation {
    row.(status := status, completedAt := if status == Completed && row.completedAt.None? then Some(now) else row.completedAt)
  }

  function NextPoll(status: Status, now: int): Option<int> {
    if IsTerminal(status) then None else Some(now + 20)
  }

  /** Writes a row and, when its status changed, one line of the audit log. */
  function Moved(s: Store, id: Id, row: Operation, source: Source): Store
    requires id in s.operations
  {
    var before := s.operations[id].status;
    s.(operations := s.operations[id := row],
       log := if before == row.status then s.log else s.log + [Transition(id, Some(before), row.status, source)])
  }

  function ActiveOf(operations: map<Id, Operation>, user: Id): set<Id> {
    set id | id in operations && operations[id].user == user && operations[id].status in ACTIVE_STATUSES
  }

  function SaveQuote(s: Store, id: Id, quote: Quote): Store {
    if id in s.quotes then s else s.(quotes := s.quotes[id := quote.(consumed := false)])
  }

  function QuoteProblem(s: Store, input: Request, now: int): (problem: Option<Reply>)
    ensures problem.Some? ==> problem.value in {QuoteNotFound, QuoteMismatch, QuoteExpired}
  {
    if input.quote.None? then None
    else if input.quote.value !in s.quotes || s.quotes[input.quote.value].user != input.user then Some(QuoteNotFound)
    else
      var quote := s.quotes[input.quote.value];
      if quote.operationType != input.operationType then Some(QuoteMismatch)
      else if quote.consumed || quote.expiresAt <= now then Some(QuoteExpired)
      else None
  }

  function NewOperation(input: Request, now: int): Operation {
    Operation(input.user, input.operationType, input.key, input.fingerprint, input.quote, input.account, input.network,
              Created, None, input.expiresAt, None, 0, Some(now + 20), None, 0, None, None, None, None, None, None)
  }

  function CreateOperation(s: Store, cap: nat, id: Id, input: Request, userKnown: bool, walletVerified: bool, now: int)
    : (Store, Reply)
  {
    if !userKnown then (s, UserUnavailable)
    else if (input.user, input.key) in s.byKey && s.byKey[(input.user, input.key)] in s.operations then
      var existing := s.byKey[(input.user, input.key)];
      (s, if s.operations[existing].fingerprint != input.fingerprint then IdempotencyConflict else Replayed(existing))
    else if |ActiveOf(s.operations, input.user)| >= cap then (s, PendingLimit)
    else if input.account.Some? && !walletVerified then (s, AccountUnavailable)
    else if QuoteProblem(s, input, now).Some? then (s, QuoteProblem(s, input, now).value)
    else if id in s.operations then (s, DuplicateKey)
    else
      (s.(operations := s.operations[id := NewOperation(input, now)],
          byKey := s.byKey[(input.user, input.key) := id],
          log := s.log + [Transition(id, None, Created, Local)],
          quotes := if input.quote.Some? && input.quote.value in s.quotes
                    then s.quotes[input.quote.value := s.quotes[input.quote.value].(consumed := true)] else s.quotes),
       Opened(id))
  }

  predicate ReferenceTaken(s: Store, reference: Id, id: Id) {
    reference in s.byReference && s.byReference[reference] != id
  }

  function WithReference(s: Store, id: Id, reference: Id): Store
    requires id in s.operations
  {
    var former := s.operations[id].reference;
    var index := if former.Some? then s.byReference - {former.value} else s.byReference;
    s.(operations := s.operations[id := s.operations[id].(reference := Some(reference))],
       byReference := index[reference := id])
  }

  function BeginInitiation(s: Store, id: Id, now: int): (Store, Reply) {
    if id !in s.operations then (s, NotFound)
    else if s.operations[id].status != Created then (s, AlreadyBegan)
    else
      var reference := if s.operations[id].reference.Some? then s.operations[id].reference.value else id;
      if ReferenceTaken(s, reference, id) then (s, DuplicateKey) else
        var t := WithReference(s, id, reference);
        (Moved(t, id, t.operations[id].(status := Initiating, nextReconcile := Some(now + 20)), Local), Began)
  }

  function CompleteInitiation(s: Store, id: Id, reference: Id, value: string, operationType: OperationType,
                              expiresAt: Option<int>, now: int): (Store, Reply)
  {
    if id !in s.operations then (s, NotFound)
    else if s.operations[id].reference != Some(reference) && s.operations[id].reference != Some(id) then (s, ReferenceConflict)
    else if s.operations[id].reference != Some(reference) && ReferenceTaken(s, reference, id) then (s, DuplicateKey)
    else
      var t := if s.operations[id].reference == Some(reference) then s else WithReference(s, id, reference);
      var before, next := s.operations[id].status, Normalize(value, operationType);
      if before != next && !CanTransition(before, next) then (s, StateConflict)
      else
        (Moved(t, id, WithStatus(t.operations[id], next, now)
                 .(expiresAt := expiresAt, reconcileAttempts := 0, nextReconcile := NextPoll(next, now)), Local), Ok)
  }

  function RecordInitiationFailure(s: Store, id: Id, ambiguous: bool, now: int): Store {
    if id !in s.operations || s.operations[id].status != Initiating then s
    else
      var next := if ambiguous then Unknown else Failed;
      Moved(s, id, s.operations[id].(status := next, nextReconcile := if ambiguous then Some(now) else None,
                                     reconcileAttempts := 0), Local)
  }

  function BindTransferIntent(s: Store, user: Id, payment: Id, intent: Id, now: int): (Store, Reply) {
    if payment !in s.operations || s.operations[payment].user != user || s.operations[payment].operationType != Offramp
    then (s, NotFound)
    else
      var row := s.operations[payment];
      if row.intent.Some? then (s, if row.intent.value == intent then Ok else TransferConflict)
      else if row.status != AwaitingChain then (s, NotReady)
      else if IsDue(row.expiresAt, now) then (s, DepositExpired)
      else if intent !in s.chain.intents then (s, IntentInvalid)
      else
        var found := s.chain.intents[intent];
        if || found.user != user || found.status != Tx.AwaitingSignature || Some(found.account) != row.account
           || Some(found.network) != row.network || found.kind != Tx.PaymentTransfer || found.payment != Some(payment)
        then (s, IntentInvalid)
        else (s.(operations := s.operations[payment := row.(intent := Some(intent))]), Ok)
  }

  function ApplyProviderStatus(s: Store, id: Id, value: string, expiresAt: Option<int>, now: int): (Store, Reply) {
    if id !in s.operations then (s, NotFound)
    else
      var row := s.operations[id];
      var next := Normalize(value, row.operationType);
      if row.status != next && !CanTransition(row.status, next) then (s, Ok)
      else
        (Moved(s, id, WithStatus(row, next, now).(expiresAt := Coalesce(expiresAt, row.expiresAt), reconcileAttempts := 0,
                                                  reconcileLock := None, nextReconcile := NextPoll(next, now)),
               FromReconciliation), Ok)
  }

  function LinkConfirmedChainTransaction(s: Store, user: Id, payment: Id, record: Id, now: int): (Store, Reply) {
    if payment !in s.operations || s.operations[payment].user != user || s.operations[payment].operationType != Offramp
    then (s, NotFound)
    else
      var row := s.operations[payment];
      if row.record == Some(record) then (s, Ok)
      else if row.chainTxHash.Some? || row.record.Some? then (s, ChainConflict)
      else if row.account.None? || row.network.None? || row.intent.None? then (s, AccountUnavailable)
      else if record !in s.chain.records then (s, NotConfirmed)
      else
        var found := s.chain.records[record];
        if || found.user != user || found.status != Tx.Confirmed || Some(found.account) != row.account
           || Some(found.network) != row.network || Some(found.intent) != row.intent
        then (s, NotConfirmed)
        else if row.status != ChainSubmitted && !CanTransition(row.status, ChainSubmitted) then (s, StateConflict)
        else
          (Moved(s, payment, row.(status := ChainSubmitted, chainTxHash := Some(found.txHash), intent := Some(found.intent),
                                  record := Some(record), nextConfirmation := Some(now), confirmationAttempts := 0,
                                  acknowledged := None, nextReconcile := Some(now)), Local), Ok)
  }

  // Webhooks.

  function StoreWebhook(s: Store, digest: Id, reference: Id, operationType: OperationType, value: string, now: int)
    : (Store, Reply)
  {
    if reference !in s.byReference || s.byReference[reference] !in s.operations then (s, NotFound)
    else
      var id := s.byReference[reference];
      if s.operations[id].operationType != operationType then (s, WebhookMismatch)
      else if exists i :: 0 <= i < |s.inbox| && s.inbox[i].digest == digest then (s, Duplicate)
      else (s.(inbox := s.inbox + [Webhook(id, digest, value, Pending, 0, Some(now), None)]), Ok)
  }

  predicate WebhookDue(hook: Webhook, now: int) {
    hook.state == Pending && (hook.nextAttempt.Some? ==> hook.nextAttempt.value <= now) && Free(hook.lock, now)
  }

  /** Ten seconds, doubled with each further attempt, at most half an hour. */
  function RetryDelay(attempt: nat): nat {
    var delay := 10 * PowerOfTwo(if attempt == 0 then 0 else attempt - 1);
    if delay < 1800 then delay else 1800
  }

  function ProcessWebhook(s: Store, i: nat, maxAttempts: nat, now: int): Store
    requires i < |s.inbox|
  {
    var hook := s.inbox[i];
    var attempts := hook.attempts + 1;
    if hook.operation !in s.operations then
      var failed := if attempts >= maxAttempts then hook.(state := InReview, nextAttempt := None)
                    else hook.(nextAttempt := Some(now + RetryDelay(attempts)));
      s.(inbox := s.inbox[i := failed.(attempts := attempts, lock := None)])
    else
      var row := s.operations[hook.operation];
      var next := Normalize(hook.value, row.operationType);
      var t := if row.status == next || !CanTransition(row.status, next) then s
               else Moved(s, hook.operation, WithStatus(row, next, now)
                            .(reconcileAttempts := 0, nextReconcile := NextPoll(next, now)), FromWebhook);
      t.(inbox := t.inbox[i := hook.(state := Processed, attempts := attempts, lock := None)])
  }

  /** The first due webhooks in order of arrival. */
  function DueWebhooks(inbox: seq<Webhook>, limit: nat, now: int): (r: seq<nat>)
    ensures forall k :: 0 <= k < |r| ==> r[k] < |inbox|
  {
    if inbox == [] then [] else
      var earlier := DueWebhooks(inbox[..|inbox| - 1], limit, now);
      if |earlier| < limit && WebhookDue(inbox[|inbox| - 1], now) then earlier + [|inbox| - 1] else earlier
  }

  function ProcessAll(s: Store, picked: seq<nat>, maxAttempts: nat, now: int): (r: Store)
    requires forall k :: 0 <= k < |picked| ==> picked[k] < |s.inbox|
    ensures |r.inbox| == |s.inbox|
  {
    if picked == [] then s else
      ProcessWebhook(ProcessAll(s, picked[..|picked| - 1], maxAttempts, now), picked[|picked| - 1], maxAttempts, now)
  }

  function ProcessWebhookBatch(s: Store, limit: nat, maxAttempts: nat, now: int): Store {
    ProcessAll(s, DueWebhooks(s.inbox, limit, now), maxAttempts, now)
  }

  // The reconciliation and confirmation workers.

  /** Whether a row may be handed to the reconciliation worker. */
  predicate Reconcilable(row: Operation, now: int) {
    && row.reference.Some? && !IsTerminal(row.status) && row.status != ManualReview
    && IsDue(row.nextReconcile, now) && Free(row.reconcileLock, now)
  }

  function ClaimReconciliation(s: Store, ids: seq<Id>, lockSeconds: nat, now: int): Store {
    if ids == [] then s else
      var t, id := ClaimReconciliation(s, ids[..|ids| - 1], lockSeconds, now), ids[|ids| - 1];
      if id in t.operations && Reconcilable(t.operations[id], now)
      then t.(operations := t.operations[id := t.operations[id].(reconcileLock := Some(now + lockSeconds))]) else t
  }

  /** A provider answer the status graph does not allow is not applied, and a terminal one suppresses escalation. */
  function Reconciled(row: Operation, value: Option<string>, attempt: nat, maxAttempts: nat, retryAt: int,
                      expiresAt: Option<int>, now: int): Operation
  {
    var answer := if value.Some? && value.value != "" then Normalize(value.value, row.operationType) else row.status;
    var next := if attempt >= maxAttempts && !IsTerminal(answer) then ManualReview else answer;
    var polled := row.(expiresAt := Coalesce(expiresAt, row.expiresAt), reconcileAttempts := attempt, reconcileLock := None);
    if row.status != next && CanTransition(row.status, next)
    then WithStatus(polled, next, now).(nextReconcile := if IsTerminal(next) then None else Some(retryAt))
    else polled.(nextReconcile := if IsTerminal(row.status) then None else Some(retryAt))
  }

  function RecordReconciliation(s: Store, id: Id, value: Option<string>, attempt: nat, maxAttempts: nat, retryAt: int,
                                expiresAt: Option<int>, now: int): Store
  {
    if id !in s.operations then s
    else Moved(s, id, Reconciled(s.operations[id], value, attempt, maxAttempts, retryAt, expiresAt, now), FromReconciliation)
  }

  predicate Confirmable(row: Operation, now: int) {
    && row.operationType == Offramp && row.reference.Some? && row.chainTxHash.Some? && row.acknowledged.None?
    && row.confirmationAttempts < 65535 && IsDue(row.nextConfirmation, now) && Free(row.confirmationLock, now)
  }

  function ClaimConfirmation(s: Store, ids: seq<Id>, lockSeconds: nat, now: int): Store {
    if ids == [] then s else
      var t, id := ClaimConfirmation(s, ids[..|ids| - 1], lockSeconds, now), ids[|ids| - 1];
      if id in t.operations && Confirmable(t.operations[id], now)
      then t.(operations := t.operations[id := t.operations[id].(confirmationLock := Some(now + lockSeconds))]) else t
  }

  /** The review status is written whatever the current status is, as long as that is not terminal. */
  function RecordConfirmationAttempt(s: Store, id: Id, acknowledged: bool, attempt: nat, retryAt: Option<int>,
                                     maxAttempts: nat, now: int): Store
  {
    if id !in s.operations then s
    else
      var row := s.operations[id].(confirmationAttempts := attempt, confirmationLock := None);
      if acknowledged
      then s.(operations := s.operations[id := row.(acknowledged := Some(now), nextConfirmation := None)])
      else
        var review := attempt >= maxAttempts && !IsTerminal(row.status);
        var written := if review then row.(nextConfirmation := None, status := ManualReview)
                       else row.(nextConfirmation := retryAt);
        s.(operations := s.operations[id := written],
           log := if review && CanTransition(row.status, ManualReview)
                  then s.log + [Transition(id, Some(row.status), ManualReview, FromConfirmation)] else s.log)
  }

  /** Every step that is not part of serving an initiation request. */
  datatype Background =
    | SavesQuote(quote: Id, terms: Quote)
    | Binds(user: Id, payment: Id, intent: Id)
    | Applies(payment: Id, value: string, expiresAt: Option<int>)
    | StoresWebhook(digest: Id, reference: Id, operationType: OperationType, value: string)
    | ProcessesWebhooks(limit: nat, maxAttempts: nat)
    | ClaimsReconciliation(ids: seq<Id>, lockSeconds: nat)
    | Reconciles(payment: Id, answer: Option<string>, attempt: nat, maxAttempts: nat, retryAt: int, expiresAt: Option<int>)
    | ClaimsConfirmation(ids: seq<Id>, lockSeconds: nat)
    | Confirms(payment: Id, acknowledged: bool, attempt: nat, next: Option<int>, maxAttempts: nat)
    | Links(user: Id, payment: Id, record: Id)
    | OnChain(step: Tx.Event)

  function Act(s: Store, b: Background, now: int): Store {
    match b
    case SavesQuote(quote, terms) => SaveQuote(s, quote, terms)
    case Binds(user, payment, intent) => BindTransferIntent(s, user, payment, intent, now).0
    case Applies(payment, value, expiresAt) => ApplyProviderStatus(s, payment, value, expiresAt, now).0
    case StoresWebhook(digest, reference, operationType, value) =>
      StoreWebhook(s, digest, reference, operationType, value, now).0
    case ProcessesWebhooks(limit, maxAttempts) => ProcessWebhookBatch(s, limit, maxAttempts, now)
    case ClaimsReconciliation(ids, lockSeconds) => ClaimReconciliation(s, ids, lockSeconds, now)
    case Reconciles(payment, answer, attempt, maxAttempts, retryAt, expiresAt) =>
      RecordReconciliation(s, payment, answer, attempt, maxAttempts, retryAt, expiresAt, now)
    case ClaimsConfirmation(ids, lockSeconds) => ClaimConfirmation(s, ids, lockSeconds, now)
    case Confirms(payment, acknowledged, attempt, next, maxAttempts) =>
      RecordConfirmationAttempt(s, payment, acknowledged, attempt, next, maxAttempts, now)
    case Links(user, payment, record) => LinkConfirmedChainTransaction(s, user, payment, record, now).0
    case OnChain(step) => s.(chain := Tx.Step(s.chain, Tx.Timed(now, step)))
  }
}
