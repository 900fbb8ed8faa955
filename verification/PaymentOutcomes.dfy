/** What each other payment transaction comes to: when it is refused and how, and what it writes when it is not. */
module PaymentOutcomes {
  import opened Prelude
  import opened PaymentStatuses
  import opened PaymentTables
  import opened PaymentJourneys
  import opened PaymentAnswers
  import Tx = Transactions

  // Opening a payment.

  /** The quote named, if any, is the user's, for this direction, unspent and not past its time. */
  ghost predicate QuoteGood(s: Store, input: Request, now: int) {
    input.quote.Some? ==>
      && input.quote.value in s.quotes
      && var q := s.quotes[input.quote.value];
         q.user == input.user && q.operationType == input.operationType && !q.consumed && now < q.expiresAt
  }

  /** Payments of the user that are neither finished nor undone. */
  ghost function UnderWay(s: Store, user: Id): set<Id> {
    set id | id in s.operations && s.operations[id].user == user && !Finished(s.operations[id].status)
  }

  ghost predicate MayOpen(s: Store, cap: nat, input: Request, userKnown: bool, walletVerified: bool, now: int) {
    && userKnown && !((input.user, input.key) in s.byKey && s.byKey[(input.user, input.key)] in s.operations)
    && |UnderWay(s, input.user)| < cap && (input.account.Some? ==> walletVerified) && QuoteGood(s, input, now)
  }

  /**
   * A payment is opened exactly when the user is known, the key is new to them, they have room for one more, and wallet
   * and quote are good. It takes over what was asked, spends the quote and starts the log; nothing else changes.
   */
  lemma CreateMeans(s: Store, cap: nat, id: Id, input: Request, userKnown: bool, walletVerified: bool, now: int)
    requires id !in s.operations
    ensures var (r, reply) := CreateOperation(s, cap, id, input, userKnown, walletVerified, now);
            && (reply == Opened(id) <==> MayOpen(s, cap, input, userKnown, walletVerified, now))
            && (reply != Opened(id) ==> r == s)
            && (reply == Opened(id) ==>
                  && r == s.(operations := r.operations, byKey := s.byKey[(input.user, input.key) := id],
                             quotes := r.quotes, log := s.log + [Transition(id, None, Created, Local)])
                  && id in r.operations && r.operations == s.operations[id := r.operations[id]]
                  && var row := r.operations[id];
                     && row.user == input.user && row.operationType == input.operationType && row.key == input.key
                     && row.fingerprint == input.fingerprint && row.quote == input.quote && row.account == input.account
                     && row.network == input.network && row.expiresAt == input.expiresAt && row.status == Created
                     && row.reference == None && row.intent == None && row.record == None && row.chainTxHash == None
                     && row.completedAt == None && row.reconcileAttempts == 0 && row.nextReconcile == Some(now + 20)
                     && row.reconcileLock == None && row.acknowledged == None
                     && r.quotes == (if input.quote.None? then s.quotes else
                                       s.quotes[input.quote.value := s.quotes[input.quote.value].(consumed := true)]))
  {
    forall x | x in s.operations ensures s.operations[x].status in ACTIVE_STATUSES <==> !Finished(s.operations[x].status) {
      CountedMeans(s.operations[x].status);
    }
    assert ActiveOf(s.operations, input.user) == UnderWay(s, input.user);
  }

  lemma CountedMeans(status: Status)
    ensures status in ACTIVE_STATUSES <==> !Finished(status)
  {
  }

  /** A repeated key answers with the payment it named, or with a conflict when something else is asked under it. */
  lemma RepeatMeans(s: Store, cap: nat, id: Id, input: Request, walletVerified: bool, now: int)
    requires (input.user, input.key) in s.byKey && s.byKey[(input.user, input.key)] in s.operations
    ensures var earlier := s.byKey[(input.user, input.key)];
            CreateOperation(s, cap, id, input, true, walletVerified, now) ==
              (s, if s.operations[earlier].fingerprint == input.fingerprint then Replayed(earlier) else IdempotencyConflict)
  {
  }

  /** A request goes on exactly when its key is new, or named the same request and that payment has not begun. */
  lemma LookUpMeans(y: System, request: Id)
    requires request in y.serving && y.serving[request].stage == Arrived
    ensures var input := y.serving[request].input; var k := (input.user, input.key); var s := y.store;
            var known := k in s.byKey && s.byKey[k] in s.operations;
            var r := LookUp(y, request);
            if || !known
               || (s.operations[s.byKey[k]].fingerprint == input.fingerprint && s.operations[s.byKey[k]].status == Created)
            then r == y.(serving := y.serving[request := Served(input, Looked)])
            else r == y.(serving := y.serving - {request})
  {
  }

  /** Opened or replayed, a request goes on with that payment; refused, it is over. */
  lemma OpenStage(y: System, cap: nat, request: Id, id: Id, userKnown: bool, walletVerified: bool, now: int)
    requires request in y.serving && y.serving[request].stage == Looked
    ensures var input := y.serving[request].input;
            var (store, reply) := CreateOperation(y.store, cap, id, input, userKnown, walletVerified, now);
            var r := Open(y, cap, request, id, userKnown, walletVerified, now);
            && (reply.Opened? || reply.Replayed? ==>
                  r == y.(store := store, serving := y.serving[request := Served(input, Ready(reply.id))]))
            && (!reply.Opened? && !reply.Replayed? ==>
                  store == y.store && r == y.(serving := y.serving - {request}))
  {
    hide ActiveOf;
  }

  /** Only the request that took the payment out of `created` asks the provider, once, and of that payment. */
  lemma BeginStage(y: System, request: Id, id: Id, now: int)
    requires request in y.serving
    ensures y.serving[request].stage == Ready(id) ==>
              var (store, reply) := BeginInitiation(y.store, id, now); var r := Begin(y, request, now);
              && (reply == Began ==>
                    r == y.(store := store, serving := y.serving[request := Served(y.serving[request].input, Asking(id))]))
              && (reply != Began ==> r == y.(serving := y.serving - {request}))
    ensures y.serving[request].stage == Asking(id) ==>
              Ask(y, request) == y.(calls := y.calls + [id],
                                    serving := y.serving[request := Served(y.serving[request].input, Awaiting(id))])
  {
    hide BeginInitiation;
  }

  /** What the provider answered is written to the payment asked about, in the direction of the request. */
  lemma HearStage(y: System, request: Id, id: Id, answer: Answer, now: int)
    requires request in y.serving && y.serving[request].stage == Awaiting(id)
    ensures Hear(y, request, answer, now) ==
            y.(serving := y.serving - {request},
               store := match answer
                        case Refusal(ambiguous) => RecordInitiationFailure(y.store, id, ambiguous, now)
                        case Acceptance(reference, value, expiresAt) =>
                          CompleteInitiation(y.store, id, reference, value, y.serving[request].input.operationType,
                                             expiresAt, now).0)
  {
    hide CompleteInitiation, RecordInitiationFailure;
  }

  // Initiation.

  /** Only a payment in `created` begins; it then has a reference, its own identifier unless it had one. */
  lemma BeginMeans(s: Store, id: Id, now: int)
    requires id in s.operations
    ensures var row := s.operations[id]; var (r, reply) := BeginInitiation(s, id, now);
            var reference := if row.reference.Some? then row.reference.value else id;
            var taken := reference in s.byReference && s.byReference[reference] != id;
            && (reply == Began <==> row.status == Created && !taken)
            && (reply != Began ==> r == s)
            && (reply == Began ==>
                  && r.operations == s.operations[id := row.(status := Initiating, reference := Some(reference),
                                                             nextReconcile := Some(now + 20))]
                  && r.log == s.log + [Transition(id, Some(Created), Initiating, Local)]
                  && reference in r.byReference && r.byReference[reference] == id)
  {
  }

  /** A failed call: the payment is failed, or unknown and due at once when the provider may have acted on it. */
  lemma FailureMeans(s: Store, id: Id, ambiguous: bool, now: int)
    ensures var r := RecordInitiationFailure(s, id, ambiguous, now);
            if id !in s.operations || s.operations[id].status != Initiating then r == s
            else
              && r.operations == s.operations[id := s.operations[id].(
                                                status := if ambiguous then Unknown else Failed, reconcileAttempts := 0,
                                                nextReconcile := if ambiguous then Some(now) else None)]
              && r.log == s.log + [Transition(id, Some(Initiating), if ambiguous then Unknown else Failed, Local)]
              && r == s.(operations := r.operations, log := r.log)
  {
  }

  // The transfer of an off-ramp.

  /** The intent is an unsigned transfer made for this payment from its wallet on its network. */
  ghost predicate MadeFor(s: Store, user: Id, payment: Id, intent: Id)
    requires payment in s.operations
  {
    var row := s.operations[payment];
    && intent in s.chain.intents
    && var found := s.chain.intents[intent];
       && found.user == user && found.status == Tx.AwaitingSignature && found.kind == Tx.PaymentTransfer
       && found.payment == Some(payment) && row.account == Some(found.account) && row.network == Some(found.network)
  }

  lemma BindMeans(s: Store, user: Id, payment: Id, intent: Id, now: int)
    ensures var (r, reply) := BindTransferIntent(s, user, payment, intent, now);
            if payment !in s.operations || s.operations[payment].user != user || s.operations[payment].operationType == Onramp
            then r == s && reply == NotFound
            else
              var row := s.operations[payment];
              if row.intent.Some? then r == s && reply == if row.intent == Some(intent) then Ok else TransferConflict
              else if row.status != AwaitingChain then r == s && reply == NotReady
              else if exists at :: row.expiresAt == Some(at) && at <= now then r == s && reply == DepositExpired
              else if !MadeFor(s, user, payment, intent) then r == s && reply == IntentInvalid
              else reply == Ok && r == s.(operations := s.operations[payment := row.(intent := Some(intent))])
  {
  }

  /** The record is the confirmed broadcast of the intent bound to the payment, from its wallet on its network. */
  ghost predicate Pays(s: Store, user: Id, payment: Id, record: Id)
    requires payment in s.operations
  {
    var row := s.operations[payment];
    && record in s.chain.records
    && var found := s.chain.records[record];
       && found.user == user && found.status == Tx.Confirmed && row.intent == Some(found.intent)
       && row.account == Some(found.account) && row.network == Some(found.network)
  }

  lemma LinkMeans(s: Store, user: Id, payment: Id, record: Id, now: int)
    ensures var (r, reply) := LinkConfirmedChainTransaction(s, user, payment, record, now);
            if payment !in s.operations || s.operations[payment].user != user || s.operations[payment].operationType == Onramp
            then r == s && reply == NotFound
            else
              var row := s.operations[payment];
              if row.record == Some(record) then r == s && reply == Ok
              else if row.chainTxHash.Some? || row.record.Some? then r == s && reply == ChainConflict
              else if row.account.None? || row.network.None? || row.intent.None? then r == s && reply == AccountUnavailable
              else if !Pays(s, user, payment, record) then r == s && reply == NotConfirmed
              else if row.status !in {AwaitingChain, ChainSubmitted, Unknown} then r == s && reply == StateConflict
              else
                && reply == Ok && payment in r.operations && r.operations == s.operations[payment := r.operations[payment]]
                && r == s.(operations := r.operations, log := r.log)
                && r.operations[payment] ==
                     row.(status := ChainSubmitted, chainTxHash := Some(s.chain.records[record].txHash), record := Some(record),
                          nextConfirmation := Some(now), confirmationAttempts := 0, acknowledged := None,
                          nextReconcile := Some(now))
                && r.log == s.log + if row.status == ChainSubmitted then []
                                    else [Transition(payment, Some(row.status), ChainSubmitted, Local)]
  {
    if payment in s.operations {
      EdgesInto(s.operations[payment].status, ChainSubmitted);
      assert s.log + [] == s.log;
    }
  }

  /** An attempt to tell the provider of the transfer: acknowledged for good, to be made again, or handed to review. */
  lemma ConfirmMeans(s: Store, id: Id, acknowledged: bool, attempt: nat, retryAt: Option<int>, maxAttempts: nat, now: int)
    requires id in s.operations
    ensures var row := s.operations[id];
            var r := RecordConfirmationAttempt(s, id, acknowledged, attempt, retryAt, maxAttempts, now);
            var review := !acknowledged && attempt >= maxAttempts && !Finished(row.status);
            && r.operations == s.operations[id := row.(
                 confirmationAttempts := attempt, confirmationLock := None,
                 acknowledged := if acknowledged then Some(now) else row.acknowledged,
                 nextConfirmation := if acknowledged || review then None else retryAt,
                 status := if review then ManualReview else row.status)]
            && r.log == s.log + (if review then [Transition(id, Some(row.status), ManualReview, FromConfirmation)] else [])
            && r == s.(operations := r.operations, log := r.log)
  {
    EdgesInto(s.operations[id].status, ManualReview);
    assert s.log + [] == s.log;
  }

  // Who is due.

  /** Due for a poll: it has a reference, is neither finished nor under review, its time has come and nobody holds it. */
  lemma PollDueMeans(row: Operation, now: int)
    ensures Reconcilable(row, now) <==>
            && row.reference.Some? && !Finished(row.status) && row.status != ManualReview
            && (exists at :: row.nextReconcile == Some(at) && at <= now)
            && (forall until :: row.reconcileLock == Some(until) ==> until < now)
  {
  }

  /** Due for confirmation: an off-ramp with a transfer the provider has not acknowledged. */
  lemma ConfirmationDueMeans(row: Operation, now: int)
    ensures Confirmable(row, now) <==>
            && row.operationType == Offramp && row.reference.Some? && row.chainTxHash.Some? && row.acknowledged == None
            && row.confirmationAttempts < 65535 && (exists at :: row.nextConfirmation == Some(at) && at <= now)
            && (forall until :: row.confirmationLock == Some(until) ==> until < now)
  {
  }

  /** Handing out confirmations locks exactly the due payments looked at, and touches nothing else. */
  lemma {:induction false} ConfirmationClaimMeans(s: Store, ids: seq<Id>, lockSeconds: nat, now: int)
    ensures var r := ClaimConfirmation(s, ids, lockSeconds, now);
            && r == s.(operations := r.operations) && r.operations.Keys == s.operations.Keys
            && forall id :: id in s.operations ==>
                 r.operations[id] == if id in ids && Confirmable(s.operations[id], now)
                                     then s.operations[id].(confirmationLock := Some(now + lockSeconds)) else s.operations[id]
  {
    hide Confirmable;
    if ids != [] {
      var init, last := ids[..|ids| - 1], ids[|ids| - 1];
      assert ids == init + [last];
      ConfirmationClaimMeans(s, init, lockSeconds, now);
      if last in s.operations {
        HeldIsBusy(s.operations[last], lockSeconds, now);
      }
    }
  }

  lemma HeldIsBusy(row: Operation, lockSeconds: nat, now: int)
    ensures !Confirmable(row.(confirmationLock := Some(now + lockSeconds)), now)
  {
  }

  // Webhooks arriving.

  /** A webhook is kept once per digest, for a payment of the direction it speaks of, due at once. */
  lemma ArrivalMeans(s: Store, digest: Id, reference: Id, operationType: OperationType, value: string, now: int)
    ensures var (r, reply) := StoreWebhook(s, digest, reference, operationType, value, now);
            if reference !in s.byReference || s.byReference[reference] !in s.operations then r == s && reply == NotFound
            else if s.operations[s.byReference[reference]].operationType != operationType
            then r == s && reply == WebhookMismatch
            else if exists hook :: hook in s.inbox && hook.digest == digest then r == s && reply == Duplicate
            else
              && reply == Ok
              && r == s.(inbox := s.inbox + [Webhook(s.byReference[reference], digest, value, Pending, 0, Some(now), None)])
  {
    if hook :| hook in s.inbox && hook.digest == digest {
      var i :| 0 <= i < |s.inbox| && s.inbox[i] == hook;
    }
  }

  // Completion dates.

  /** A completed payment is dated, and only a payment that was completed is. */
  ghost predicate Dated(row: Operation) {
    && (row.status == Completed ==> row.completedAt.Some?)
    && (row.completedAt.Some? ==> row.status == Completed || row.status == Reversed)
  }

  ghost predicate AllDated(s: Store) {
    forall id :: id in s.operations ==> Dated(s.operations[id])
  }

  lemma WithStatusDated(row: Operation, next: Status, now: int)
    requires Dated(row) && CanTransition(row.status, next)
    ensures Dated(WithStatus(row, next, now))
  {
  }

  lemma {:induction false} ActDated(s: Store, act: Background, now: int)
    requires AllDated(s)
    ensures AllDated(Act(s, act, now))
  {
    hide Dated, WithStatus, Normalize, AllowedNext, ProcessAll, ClaimReconciliation, ClaimConfirmation, Tx.Step,
      CanTransition, RetryDelay;
    match act
    case SavesQuote(quote, terms) =>
    case Binds(user, payment, intent) => BindDated(s, user, payment, intent, now);
    case Applies(payment, value, expiresAt) => StatusReadDated(s, payment, value, expiresAt, now);
    case StoresWebhook(digest, reference, operationType, value) =>
    case ProcessesWebhooks(limit, maxAttempts) => WebhooksDated(s, DueWebhooks(s.inbox, limit, now), maxAttempts, now);
    case ClaimsReconciliation(ids, lockSeconds) => ClaimsDated(s, ids, lockSeconds, now);
    case Reconciles(payment, answer, attempt, maxAttempts, retryAt, expiresAt) =>
      PollDated(s, payment, answer, attempt, maxAttempts, retryAt, expiresAt, now);
    case ClaimsConfirmation(ids, lockSeconds) => ClaimsDated(s, ids, lockSeconds, now);
    case Confirms(payment, acknowledged, attempt, next, maxAttempts) =>
      ConfirmDated(s, payment, acknowledged, attempt, next, maxAttempts, now);
    case Links(user, payment, record) => LinkDated(s, user, payment, record, now);
    case OnChain(step) =>
  }

  lemma BindDated(s: Store, user: Id, payment: Id, intent: Id, now: int)
    requires AllDated(s)
    ensures AllDated(BindTransferIntent(s, user, payment, intent, now).0)
  {
  }

  lemma {:induction false} StatusReadDated(s: Store, id: Id, value: string, expiresAt: Option<int>, now: int)
    requires AllDated(s)
    ensures AllDated(ApplyProviderStatus(s, id, value, expiresAt, now).0)
  {
    hide Normalize, CanTransition, WithStatus;
    if id in s.operations {
      var next := Normalize(value, s.operations[id].operationType);
      if s.operations[id].status == next {
        SelfEdge(next);
      }
      if CanTransition(s.operations[id].status, next) {
        WithStatusDated(s.operations[id], next, now);
      }
    }
  }

  lemma SelfEdge(status: Status)
    ensures CanTransition(status, status)
  {
  }

  lemma {:induction false} WebhookDated(s: Store, i: nat, maxAttempts: nat, now: int)
    requires i < |s.inbox| && AllDated(s)
    ensures AllDated(ProcessWebhook(s, i, maxAttempts, now))
  {
    hide Normalize, CanTransition, WithStatus, RetryDelay;
    var id := s.inbox[i].operation;
    if id in s.operations {
      var next := Normalize(s.inbox[i].value, s.operations[id].operationType);
      if CanTransition(s.operations[id].status, next) {
        WithStatusDated(s.operations[id], next, now);
      }
    }
  }

  lemma {:induction false} WebhooksDated(s: Store, picked: seq<nat>, maxAttempts: nat, now: int)
    requires (forall k :: 0 <= k < |picked| ==> picked[k] < |s.inbox|) && AllDated(s)
    ensures AllDated(ProcessAll(s, picked, maxAttempts, now))
  {
    hide ProcessWebhook, AllDated;
    if picked != [] {
      WebhooksDated(s, picked[..|picked| - 1], maxAttempts, now);
      WebhookDated(ProcessAll(s, picked[..|picked| - 1], maxAttempts, now), picked[|picked| - 1], maxAttempts, now);
    }
  }

  lemma {:induction false} ClaimsDated(s: Store, ids: seq<Id>, lockSeconds: nat, now: int)
    requires AllDated(s)
    ensures AllDated(ClaimReconciliation(s, ids, lockSeconds, now)) && AllDated(ClaimConfirmation(s, ids, lockSeconds, now))
  {
    hide Reconcilable, Confirmable;
    if ids != [] {
      ClaimsDated(s, ids[..|ids| - 1], lockSeconds, now);
    }
  }

  lemma {:induction false} PollDated(s: Store, id: Id, value: Option<string>, attempt: nat, maxAttempts: nat,
                                     retryAt: int, expiresAt: Option<int>, now: int)
    requires AllDated(s)
    ensures AllDated(RecordReconciliation(s, id, value, attempt, maxAttempts, retryAt, expiresAt, now))
  {
    hide Normalize, AllowedNext;
    if id in s.operations {
      PollMeans(s, id, value, attempt, maxAttempts, retryAt, expiresAt, now);
      CompletedLeadsTo(s.operations[id].status, s.operations[id].status);
    }
  }

  lemma CompletedLeadsTo(from: Status, to: Status)
    ensures forall next :: from == Completed && CanTransition(from, next) ==> next == Completed || next == Reversed
    ensures forall next :: from == Reversed && CanTransition(from, next) ==> next == Reversed
  {
  }

  lemma ConfirmDated(s: Store, id: Id, acknowledged: bool, attempt: nat, retryAt: Option<int>, maxAttempts: nat, now: int)
    requires AllDated(s)
    ensures AllDated(RecordConfirmationAttempt(s, id, acknowledged, attempt, retryAt, maxAttempts, now))
  {
    hide AllowedNext;
  }

  lemma LinkDated(s: Store, user: Id, payment: Id, record: Id, now: int)
    requires AllDated(s)
    ensures AllDated(LinkConfirmedChainTransaction(s, user, payment, record, now).0)
  {
    hide CanTransition;
    if payment in s.operations {
      EdgesInto(s.operations[payment].status, ChainSubmitted);
    }
  }

  lemma {:induction false} ServedDated(y: System, cap: nat, e: Timed)
    requires AllDated(y.store)
    ensures AllDated(Step(y, cap, e).store)
  {
    hide Act, Normalize, CanTransition, WithStatus, ActiveOf, QuoteProblem, Dated;
    match e.event
    case Opens(request, id, userKnown, walletVerified) =>
      if request in y.serving {
        OpenedDated(y.store, cap, id, y.serving[request].input, userKnown, walletVerified, e.now);
      }
    case Begins(request) =>
      if request in y.serving && y.serving[request].stage.Ready? {
        BegunDated(y.store, y.serving[request].stage.id, e.now);
      }
    case Hears(request, answer) =>
      if request in y.serving && y.serving[request].stage.Awaiting? {
        HeardDated(y.store, y.serving[request].stage.id, answer, y.serving[request].input.operationType, e.now);
      }
    case Happens(act) => ActDated(y.store, act, e.now);
    case _ =>
  }

  lemma OpenedDated(s: Store, cap: nat, id: Id, input: Request, userKnown: bool, walletVerified: bool, now: int)
    requires AllDated(s)
    ensures AllDated(CreateOperation(s, cap, id, input, userKnown, walletVerified, now).0)
  {
    hide ActiveOf, QuoteProblem;
  }

  lemma BegunDated(s: Store, id: Id, now: int)
    requires AllDated(s)
    ensures AllDated(BeginInitiation(s, id, now).0)
  {
  }

  lemma {:induction false} HeardDated(s: Store, id: Id, answer: Answer, operationType: OperationType, now: int)
    requires AllDated(s)
    ensures match answer
            case Refusal(ambiguous) => AllDated(RecordInitiationFailure(s, id, ambiguous, now))
            case Acceptance(reference, value, expiresAt) =>
              AllDated(CompleteInitiation(s, id, reference, value, operationType, expiresAt, now).0)
  {
    hide Normalize, CanTransition;
    match answer
    case Refusal(ambiguous) =>
    case Acceptance(reference, value, expiresAt) =>
      if id in s.operations {
        AcceptanceMeans(s, id, reference, value, operationType, expiresAt, now);
        AcceptedDated(s.operations[id].status, Normalize(value, operationType));
      }
  }

  lemma AcceptedDated(from: Status, next: Status)
    ensures CanTransition(from, next) && from == Completed ==> next == Completed || next == Reversed
    ensures CanTransition(from, next) && from == Reversed ==> next == Reversed
    ensures CanTransition(from, from)
  {
  }

  /** In every run a payment has a completion date exactly when it was completed: it still is, or was reversed since. */
  lemma {:induction false} CompletionsDated(cap: nat, events: seq<Timed>, id: Id)
    requires id in Run(cap, events).store.operations
    ensures var row := Run(cap, events).store.operations[id];
            && (row.status == Completed ==> row.completedAt.Some?)
            && (row.completedAt.Some? ==> row.status == Completed || row.status == Reversed)
  {
    hide Run;
    RunDated(cap, events);
  }

  lemma {:induction false} RunDated(cap: nat, events: seq<Timed>)
    ensures AllDated(Run(cap, events).store)
  {
    hide Step;
    if events != [] {
      RunDated(cap, events[..|events| - 1]);
      ServedDated(Run(cap, events[..|events| - 1]), cap, events[|events| - 1]);
    }
  }
}
