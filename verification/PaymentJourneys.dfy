/**
 * Requests to start a payment, served concurrently with everything else that touches the payment tables.
 *
 * A request is a sequence of repository transactions with a call to the provider in the middle; any other step may
 * come between two of them, and a request may stop for good after any of them.
 */
module PaymentJourneys {
  import opened Prelude
  import opened PaymentStatuses
  import opened PaymentTables
  import opened PaymentInvariants
  import opened PaymentSteps
  import Tx = Transactions

  datatype Stage = Arrived | Looked | Ready(id: Id) | Asking(id: Id) | Awaiting(id: Id)
  datatype Served = Served(input: Request, stage: Stage)

  /** `calls` lists the payments for which the provider's initiate endpoint was called. */
  datatype System = System(store: Store, serving: map<Id, Served>, calls: seq<Id>)

  const EmptySystem := System(EmptyStore, map[], [])

  datatype Answer =
    | Refusal(ambiguous: bool)
    | Acceptance(reference: Id, value: string, expiresAt: Option<int>)

  datatype Event =
    | Arrives(request: Id, user: Id, operationType: OperationType, key: Id, material: Id, quote: Id, account: Id, network: Id,
              expiresAt: int)
    | LooksUp(request: Id)
    | Opens(request: Id, id: Id, userKnown: bool, walletVerified: bool)
    | Begins(request: Id)
    | Asks(request: Id)
    | Hears(request: Id, answer: Answer)
    | Abandons(request: Id)
    | Happens(act: Background)

  datatype Timed = Timed(now: int, event: Event)

  function Finish(y: System, request: Id): System {
    y.(serving := y.serving - {request})
  }

  function At(y: System, request: Id, stage: Stage): System
    requires request in y.serving
  {
    y.(serving := y.serving[request := y.serving[request].(stage := stage)])
  }

  /** The fingerprint of a request covers its direction as well as its material. */
  function Arrive(y: System, e: Event): System
    requires e.Arrives?
  {
    if e.request in y.serving then y else
      var input := Request(e.user, e.operationType, e.key, Fingerprint(e.operationType, e.material), Some(e.quote),
                           Some(e.account), Some(e.network), Some(e.expiresAt));
      y.(serving := y.serving[e.request := Served(input, Arrived)])
  }

  /** A replayed key goes on only while its payment has not begun. */
  function LookUp(y: System, request: Id): System {
    if request !in y.serving || y.serving[request].stage != Arrived then y
    else
      var input := y.serving[request].input;
      var k := (input.user, input.key);
      if k !in y.store.byKey || y.store.byKey[k] !in y.store.operations then At(y, request, Looked)
      else
        var row := y.store.operations[y.store.byKey[k]];
        if row.fingerprint != input.fingerprint || row.status != Created then Finish(y, request) else At(y, request, Looked)
  }

  function Open(y: System, cap: nat, request: Id, id: Id, userKnown: bool, walletVerified: bool, now: int): System {
    if request !in y.serving || y.serving[request].stage != Looked then y
    else
      var (store, reply) := CreateOperation(y.store, cap, id, y.serving[request].input, userKnown, walletVerified, now);
      match reply
      case Opened(made) => At(y.(store := store), request, Ready(made))
      case Replayed(existing) => At(y.(store := store), request, Ready(existing))
      case _ => Finish(y, request)
  }

  function Begin(y: System, request: Id, now: int): System {
    if request !in y.serving || !y.serving[request].stage.Ready? then y
    else
      var (store, reply) := BeginInitiation(y.store, y.serving[request].stage.id, now);
      if reply == Began then At(y.(store := store), request, Asking(y.serving[request].stage.id)) else Finish(y, request)
  }

  function Ask(y: System, request: Id): System {
    if request !in y.serving || !y.serving[request].stage.Asking? then y
    else
      var id := y.serving[request].stage.id;
      At(y.(calls := y.calls + [id]), request, Awaiting(id))
  }

  function Hear(y: System, request: Id, answer: Answer, now: int): System {
    if request !in y.serving || !y.serving[request].stage.Awaiting? then y
    else
      var id, input := y.serving[request].stage.id, y.serving[request].input;
      var store :=
        match answer
        case Refusal(ambiguous) => RecordInitiationFailure(y.store, id, ambiguous, now)
        case Acceptance(reference, value, expiresAt) =>
          CompleteInitiation(y.store, id, reference, value, input.operationType, expiresAt, now).0;
      Finish(y.(store := store), request)
  }

  function Step(y: System, cap: nat, e: Timed): System {
    match e.event
    case Arrives(_, _, _, _, _, _, _, _, _) => Arrive(y, e.event)
    case LooksUp(request) => LookUp(y, request)
    case Opens(request, id, userKnown, walletVerified) => Open(y, cap, request, id, userKnown, walletVerified, e.now)
    case Begins(request) => Begin(y, request, e.now)
    case Asks(request) => Ask(y, request)
    case Hears(request, answer) => Hear(y, request, answer, e.now)
    case Abandons(request) => Finish(y, request)
    case Happens(act) => y.(store := Act(y.store, act, e.now))
  }

  function Run(cap: nat, events: seq<Timed>): System {
    if events == [] then EmptySystem else Step(Run(cap, events[..|events| - 1]), cap, events[|events| - 1])
  }

  // Statuses only move onward.

  predicate Onward(a: Status, b: Status) {
    && (b == Created ==> a == Created)
    && (IsTerminal(a) ==> IsTerminal(b))
    && (a == ManualReview ==> b == ManualReview)
    && (a == Reversed || a == Failed || a == Expired ==> a == b)
    && (a == Completed ==> b == Completed || b == Reversed)
  }

  /** No payment disappears or changes its request, and each one moves onward. */
  ghost predicate Later(s: Store, r: Store) {
    forall id :: id in s.operations ==>
      && id in r.operations && SameRequest(s.operations[id], r.operations[id])
      && Onward(s.operations[id].status, r.operations[id].status)
  }

  lemma EdgeOnward(a: Status, b: Status)
    requires CanTransition(a, b)
    ensures Onward(a, b)
  {
  }

  lemma OneLater(s: Store, r: Store, id: Id)
    requires id in s.operations && id in r.operations && r.operations == s.operations[id := r.operations[id]]
    requires SameRequest(s.operations[id], r.operations[id]) && CanTransition(s.operations[id].status, r.operations[id].status)
    ensures Later(s, r)
  {
    hide AllowedNext, CanTransition;
    EdgeOnward(s.operations[id].status, r.operations[id].status);
  }

  lemma BeginLater(s: Store, id: Id, now: int)
    ensures Later(s, BeginInitiation(s, id, now).0)
  {
    var (r, reply) := BeginInitiation(s, id, now);
    if reply == Began {
      OneLater(s, r, id);
    }
  }

  lemma CompleteLater(s: Store, id: Id, reference: Id, value: string, operationType: OperationType,
                      expiresAt: Option<int>, now: int)
    ensures Later(s, CompleteInitiation(s, id, reference, value, operationType, expiresAt, now).0)
    ensures CompleteInitiation(s, id, reference, value, operationType, expiresAt, now).0.chain == s.chain
  {
    hide Normalize, AllowedNext, Onward;
    var (r, reply) := CompleteInitiation(s, id, reference, value, operationType, expiresAt, now);
    if reply == Ok {
      OneLater(s, r, id);
    } else {
      SameLater(s);
    }
  }

  lemma SameLater(s: Store)
    ensures Later(s, s)
  {
  }

  lemma {:induction false} ProcessAllLater(s: Store, picked: seq<nat>, maxAttempts: nat, now: int)
    requires forall k :: 0 <= k < |picked| ==> picked[k] < |s.inbox|
    ensures Later(s, ProcessAll(s, picked, maxAttempts, now))
  {
    hide ProcessWebhook;
    if picked != [] {
      ProcessAllLater(s, picked[..|picked| - 1], maxAttempts, now);
      ProcessLater(ProcessAll(s, picked[..|picked| - 1], maxAttempts, now), picked[|picked| - 1], maxAttempts, now);
    }
  }

  lemma ProcessLater(s: Store, i: nat, maxAttempts: nat, now: int)
    requires i < |s.inbox|
    ensures Later(s, ProcessWebhook(s, i, maxAttempts, now))
  {
    hide Normalize, AllowedNext, Onward, RetryDelay;
    SameLater(s);
    var r := ProcessWebhook(s, i, maxAttempts, now);
    if s.inbox[i].operation in s.operations && r.operations != s.operations {
      OneLater(s, r, s.inbox[i].operation);
    }
  }

  lemma {:induction false} ClaimsLater(s: Store, ids: seq<Id>, lockSeconds: nat, now: int)
    ensures Later(s, ClaimReconciliation(s, ids, lockSeconds, now))
    ensures Later(s, ClaimConfirmation(s, ids, lockSeconds, now))
  {
    hide Onward;
    if ids == [] {
      SameLater(s);
    } else {
      ClaimsLater(s, ids[..|ids| - 1], lockSeconds, now);
    }
  }

  lemma BindLater(s: Store, user: Id, payment: Id, intent: Id, now: int)
    ensures Later(s, BindTransferIntent(s, user, payment, intent, now).0)
  {
    hide Onward, AllowedNext;
    SameLater(s);
    var r := BindTransferIntent(s, user, payment, intent, now).0;
    if r != s {
      OneLater(s, r, payment);
    }
  }

  lemma ApplyLater(s: Store, id: Id, value: string, expiresAt: Option<int>, now: int)
    ensures Later(s, ApplyProviderStatus(s, id, value, expiresAt, now).0)
  {
    hide Onward, AllowedNext, Normalize;
    SameLater(s);
    var r := ApplyProviderStatus(s, id, value, expiresAt, now).0;
    if r != s {
      OneLater(s, r, id);
    }
  }

  lemma ReconcileLater(s: Store, id: Id, value: Option<string>, attempt: nat, maxAttempts: nat, retryAt: int,
                       expiresAt: Option<int>, now: int)
    ensures Later(s, RecordReconciliation(s, id, value, attempt, maxAttempts, retryAt, expiresAt, now))
  {
    hide Onward, AllowedNext, Normalize;
    SameLater(s);
    if id in s.operations {
      OneLater(s, RecordReconciliation(s, id, value, attempt, maxAttempts, retryAt, expiresAt, now), id);
    }
  }

  lemma ConfirmLater(s: Store, id: Id, acknowledged: bool, attempt: nat, retryAt: Option<int>, maxAttempts: nat, now: int)
    ensures Later(s, RecordConfirmationAttempt(s, id, acknowledged, attempt, retryAt, maxAttempts, now))
  {
    hide Onward, AllowedNext;
    SameLater(s);
    if id in s.operations {
      GraphShape(s.operations[id].status, s.operations[id].status);
      OneLater(s, RecordConfirmationAttempt(s, id, acknowledged, attempt, retryAt, maxAttempts, now), id);
    }
  }

  lemma LinkLater(s: Store, user: Id, payment: Id, record: Id, now: int)
    ensures Later(s, LinkConfirmedChainTransaction(s, user, payment, record, now).0)
  {
    hide Onward, AllowedNext;
    SameLater(s);
    var r := LinkConfirmedChainTransaction(s, user, payment, record, now).0;
    if r != s {
      OneLater(s, r, payment);
    }
  }

  lemma ActLater(s: Store, b: Background, now: int)
    ensures Later(s, Act(s, b, now))
  {
    hide Onward, SameRequest, ProcessAll, ClaimReconciliation, ClaimConfirmation, BindTransferIntent, ApplyProviderStatus,
      RecordReconciliation, RecordConfirmationAttempt, LinkConfirmedChainTransaction;
    SameLater(s);
    match b
    case SavesQuote(quote, terms) =>
    case Binds(user, payment, intent) => BindLater(s, user, payment, intent, now);
    case Applies(payment, value, expiresAt) => ApplyLater(s, payment, value, expiresAt, now);
    case StoresWebhook(digest, reference, operationType, value) =>
    case ProcessesWebhooks(limit, maxAttempts) => ProcessAllLater(s, DueWebhooks(s.inbox, limit, now), maxAttempts, now);
    case ClaimsReconciliation(ids, lockSeconds) => ClaimsLater(s, ids, lockSeconds, now);
    case Reconciles(payment, answer, attempt, maxAttempts, retryAt, expiresAt) =>
      ReconcileLater(s, payment, answer, attempt, maxAttempts, retryAt, expiresAt, now);
    case ClaimsConfirmation(ids, lockSeconds) => ClaimsLater(s, ids, lockSeconds, now);
    case Confirms(payment, acknowledged, attempt, next, maxAttempts) =>
      ConfirmLater(s, payment, acknowledged, attempt, next, maxAttempts, now);
    case Links(user, payment, record) => LinkLater(s, user, payment, record, now);
    case OnChain(step) =>
  }

  // What requests in flight rely on.

  ghost predicate Orderly(y: System) {
    && (forall r :: r in y.serving ==> y.serving[r].input.fingerprint.operationType == y.serving[r].input.operationType)
    && (forall r :: r in y.serving && !y.serving[r].stage.Arrived? && !y.serving[r].stage.Looked? ==>
          var id, input := y.serving[r].stage.id, y.serving[r].input;
          && id in y.store.operations
          && y.store.operations[id].user == input.user && y.store.operations[id].key == input.key
          && y.store.operations[id].fingerprint == input.fingerprint
          && (!y.serving[r].stage.Ready? ==> y.store.operations[id].status != Created))
    && (forall r :: r in y.serving && y.serving[r].stage.Asking? ==> y.serving[r].stage.id !in y.calls)
    && (forall q, r :: q in y.serving && r in y.serving && y.serving[q].stage.Asking? && y.serving[q].stage == y.serving[r].stage
          ==> q == r)
    && (forall id :: id in y.calls ==> id in y.store.operations && y.store.operations[id].status != Created)
    && (forall i, j :: 0 <= i < j < |y.calls| ==> y.calls[i] != y.calls[j])
  }

  lemma StoreOrderly(y: System, store: Store)
    requires Orderly(y) && Later(y.store, store)
    ensures Orderly(y.(store := store))
  {
  }

  lemma FinishOrderly(y: System, request: Id)
    requires Orderly(y)
    ensures Orderly(Finish(y, request))
  {
  }

  /** What holds whatever the workers do; with `settled`, also that linked transfers stay confirmed. */
  ghost predicate Safe(y: System, cap: nat, settled: bool) {
    Healthy(y.store, cap, settled) && Tx.Linked(y.store.chain) && Orderly(y)
  }

  lemma CreateLater(s: Store, cap: nat, id: Id, input: Request, userKnown: bool, walletVerified: bool, now: int)
    ensures var (r, reply) := CreateOperation(s, cap, id, input, userKnown, walletVerified, now);
            && Later(s, r) && r.chain == s.chain
            && (reply.Opened? ==> reply.id == id && id in r.operations && r.operations[id] == NewOperation(input, now))
            && (reply.Replayed? ==> r == s && reply.id in s.operations && s.operations[reply.id].fingerprint == input.fingerprint
                                    && (input.user, input.key) in s.byKey && reply.id == s.byKey[(input.user, input.key)])
            && (!reply.Opened? ==> r == s)
  {
    hide ActiveOf, QuoteProblem;
    SameLater(s);
  }

  lemma OpenSafe(y: System, cap: nat, request: Id, id: Id, userKnown: bool, walletVerified: bool, now: int, settled: bool)
    requires Safe(y, cap, settled)
    ensures Safe(Open(y, cap, request, id, userKnown, walletVerified, now), cap, settled)
    ensures Later(y.store, Open(y, cap, request, id, userKnown, walletVerified, now).store)
  {
    hide Healthy, Tx.Linked, CreateOperation, Later;
    if request in y.serving && y.serving[request].stage == Looked {
      var input := y.serving[request].input;
      assert input.fingerprint.operationType == input.operationType;
      CreateHealthy(y.store, cap, id, input, userKnown, walletVerified, now, settled);
      CreateLater(y.store, cap, id, input, userKnown, walletVerified, now);
      var (store, reply) := CreateOperation(y.store, cap, id, input, userKnown, walletVerified, now);
      StoreOrderly(y, store);
      if reply.Replayed? {
        KeyNames(y.store, cap, settled, (input.user, input.key));
      }
      if reply.Opened? || reply.Replayed? {
        ReadyOrderly(y.(store := store), request, reply.id);
      } else {
        FinishOrderly(y, request);
      }
    } else {
      SameLater(y.store);
    }
  }

  lemma KeyNames(s: Store, cap: nat, settled: bool, k: (Id, Id))
    requires Healthy(s, cap, settled) && k in s.byKey
    ensures s.byKey[k] in s.operations
    ensures var row := s.operations[s.byKey[k]]; (row.user, row.key) == k
  {
    hide Audited, Capped, Directed, Referenced, QuotesSpent, AllLinked;
  }

  lemma ReadyOrderly(y: System, request: Id, id: Id)
    requires Orderly(y) && request in y.serving && id in y.store.operations
    requires var row, input := y.store.operations[id], y.serving[request].input;
             row.user == input.user && row.key == input.key && row.fingerprint == input.fingerprint
    ensures Orderly(At(y, request, Ready(id)))
  {
  }

  lemma BeginSafe(y: System, cap: nat, request: Id, now: int, settled: bool)
    requires Safe(y, cap, settled)
    ensures Safe(Begin(y, request, now), cap, settled) && Later(y.store, Begin(y, request, now).store)
  {
    hide Healthy, Tx.Linked, Later;
    if request in y.serving && y.serving[request].stage.Ready? {
      var id := y.serving[request].stage.id;
      BeginHealthy(y.store, id, now, cap, settled);
      BeginLater(y.store, id, now);
      var (store, reply) := BeginInitiation(y.store, id, now);
      if reply == Began {
        AskingOrderly(y, request, store);
      } else {
        FinishOrderly(y, request);
      }
    } else {
      SameLater(y.store);
    }
  }

  /** Only one request finds the payment in `created`, and none did before it. */
  lemma AskingOrderly(y: System, request: Id, store: Store)
    requires Orderly(y) && request in y.serving && y.serving[request].stage.Ready? && Later(y.store, store)
    requires y.store.operations[y.serving[request].stage.id].status == Created
    requires store.operations[y.serving[request].stage.id].status != Created
    ensures Orderly(At(y.(store := store), request, Asking(y.serving[request].stage.id)))
  {
  }

  lemma AskSafe(y: System, cap: nat, request: Id, settled: bool)
    requires Safe(y, cap, settled)
    ensures Safe(Ask(y, request), cap, settled) && Ask(y, request).store == y.store
  {
    hide Healthy, Tx.Linked;
    if request in y.serving && y.serving[request].stage.Asking? {
      AskedOrderly(y, request);
    }
  }

  lemma AskedOrderly(y: System, request: Id)
    requires Orderly(y) && request in y.serving && y.serving[request].stage.Asking?
    ensures Orderly(Ask(y, request))
  {
    var id := y.serving[request].stage.id;
    assert forall r :: r in y.serving && y.serving[r].stage == Asking(id) ==> r == request;
  }

  lemma HearSafe(y: System, cap: nat, request: Id, answer: Answer, now: int, settled: bool)
    requires Safe(y, cap, settled)
    ensures Safe(Hear(y, request, answer, now), cap, settled) && Later(y.store, Hear(y, request, answer, now).store)
  {
    hide Healthy, Tx.Linked, Later, CompleteInitiation, RecordInitiationFailure;
    SameLater(y.store);
    if request in y.serving && y.serving[request].stage.Awaiting? {
      var id, input := y.serving[request].stage.id, y.serving[request].input;
      var store := Hear(y, request, answer, now).store;
      match answer {
        case Refusal(ambiguous) =>
          FailureHealthy(y.store, id, ambiguous, now, cap, settled);
          FailureLater(y.store, id, ambiguous, now);
        case Acceptance(reference, value, expiresAt) =>
          RowHealthy(y.store, id, cap, settled);
          CompleteHealthy(y.store, id, reference, value, input.operationType, expiresAt, now, cap, settled);
          CompleteLater(y.store, id, reference, value, input.operationType, expiresAt, now);
      }
      StoreOrderly(y, store);
      FinishOrderly(y.(store := store), request);
    }
  }

  lemma FailureLater(s: Store, id: Id, ambiguous: bool, now: int)
    ensures Later(s, RecordInitiationFailure(s, id, ambiguous, now))
    ensures RecordInitiationFailure(s, id, ambiguous, now).chain == s.chain
  {
    SameLater(s);
    var r := RecordInitiationFailure(s, id, ambiguous, now);
    if r != s {
      OneLater(s, r, id);
    }
  }

  lemma ActSafe(y: System, cap: nat, act: Background, now: int, settled: bool)
    requires Safe(y, cap, settled)
    requires settled && act.OnChain? ==> !Undoes(y.store, Tx.Timed(now, act.step))
    ensures Safe(y.(store := Act(y.store, act, now)), cap, settled) && Later(y.store, Act(y.store, act, now))
  {
    hide Healthy, Tx.Linked, Later, Orderly, Act, Undoes;
    ActHealthy(y.store, act, now, cap, settled);
    ActLater(y.store, act, now);
    ChainMoves(y.store, act, now);
    if act.OnChain? {
      Tx.StepLinked(y.store.chain, Tx.Timed(now, act.step));
    }
    StoreOrderly(y, Act(y.store, act, now));
  }

  /** Only a step on the chain changes intents and records. */
  lemma ChainMoves(s: Store, act: Background, now: int)
    ensures Act(s, act, now).chain == if act.OnChain? then Tx.Step(s.chain, Tx.Timed(now, act.step)) else s.chain
  {
    hide Normalize, AllowedNext, ProcessAll, ClaimReconciliation, ClaimConfirmation, Reconciled, Tx.Step;
    match act
    case ProcessesWebhooks(limit, maxAttempts) => ProcessKeepsChain(s, DueWebhooks(s.inbox, limit, now), maxAttempts, now);
    case ClaimsReconciliation(ids, lockSeconds) => ClaimsKeepChain(s, ids, lockSeconds, now);
    case ClaimsConfirmation(ids, lockSeconds) => ClaimsKeepChain(s, ids, lockSeconds, now);
    case _ =>
  }

  lemma {:induction false} ProcessKeepsChain(s: Store, picked: seq<nat>, maxAttempts: nat, now: int)
    requires forall k :: 0 <= k < |picked| ==> picked[k] < |s.inbox|
    ensures ProcessAll(s, picked, maxAttempts, now).chain == s.chain
  {
    hide Normalize, AllowedNext, RetryDelay;
    if picked != [] {
      ProcessKeepsChain(s, picked[..|picked| - 1], maxAttempts, now);
    }
  }

  lemma {:induction false} ClaimsKeepChain(s: Store, ids: seq<Id>, lockSeconds: nat, now: int)
    ensures ClaimReconciliation(s, ids, lockSeconds, now).chain == s.chain
    ensures ClaimConfirmation(s, ids, lockSeconds, now).chain == s.chain
  {
    if ids != [] {
      ClaimsKeepChain(s, ids[..|ids| - 1], lockSeconds, now);
    }
  }

  predicate OnChainNow(e: Timed) {
    e.event.Happens? && e.event.act.OnChain?
  }

  /** The event unsettles a record that a payment is linked to. */
  ghost predicate UndoneBy(y: System, e: Timed) {
    OnChainNow(e) && Undoes(y.store, Tx.Timed(e.now, e.event.act.step))
  }

  lemma StepSafe(y: System, cap: nat, e: Timed, settled: bool)
    requires Safe(y, cap, settled)
    requires settled ==> !UndoneBy(y, e)
    ensures Safe(Step(y, cap, e), cap, settled) && Later(y.store, Step(y, cap, e).store)
  {
    hide Healthy, Tx.Linked, Later, Act, Open, Begin, Ask, Hear, Undoes;
    SameLater(y.store);
    match e.event
    case Arrives(_, _, _, _, _, _, _, _, _) =>
    case LooksUp(request) =>
    case Opens(request, id, userKnown, walletVerified) =>
      OpenSafe(y, cap, request, id, userKnown, walletVerified, e.now, settled);
    case Begins(request) => BeginSafe(y, cap, request, e.now, settled);
    case Asks(request) => AskSafe(y, cap, request, settled);
    case Hears(request, answer) => HearSafe(y, cap, request, answer, e.now, settled);
    case Abandons(request) => FinishOrderly(y, request);
    case Happens(act) =>
      ActSafe(y, cap, act, e.now, settled);
  }

  lemma ChainStep(y: System, cap: nat, e: Timed)
    ensures Step(y, cap, e).store.chain ==
            if OnChainNow(e) then Tx.Step(y.store.chain, Tx.Timed(e.now, e.event.act.step)) else y.store.chain
  {
    hide Act, Open, Begin, Hear, LookUp, Ask, Arrive;
    if e.event.Happens? {
      ChainMoves(y.store, e.event.act, e.now);
    } else {
      ChainKept(y, cap, e);
    }
  }

  lemma ChainKept(y: System, cap: nat, e: Timed)
    requires !e.event.Happens?
    ensures Step(y, cap, e).store.chain == y.store.chain
  {
    hide Normalize, AllowedNext, ActiveOf, QuoteProblem;
  }
}
