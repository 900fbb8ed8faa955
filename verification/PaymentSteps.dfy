/** Every transaction on the payment tables keeps them healthy. */
module PaymentSteps {
  import opened Prelude
  import opened PaymentStatuses
  import opened PaymentTables
  import opened PaymentInvariants
  import Tx = Transactions

  lemma InboxIrrelevant(s: Store, inbox: seq<Webhook>, cap: nat, settled: bool)
    requires Healthy(s, cap, settled)
    ensures Healthy(s.(inbox := inbox), cap, settled)
  {
  }

  lemma SaveQuoteHealthy(s: Store, id: Id, quote: Quote, cap: nat, settled: bool)
    requires Healthy(s, cap, settled)
    ensures Healthy(SaveQuote(s, id, quote), cap, settled)
  {
    hide Capped, WellLinked;
  }

  // Opening a payment.

  lemma CreateHealthy(s: Store, cap: nat, id: Id, input: Request, userKnown: bool, walletVerified: bool, now: int,
                      settled: bool)
    requires Healthy(s, cap, settled) && input.fingerprint.operationType == input.operationType
    ensures Healthy(CreateOperation(s, cap, id, input, userKnown, walletVerified, now).0, cap, settled)
  {
    hide Audited, Capped, Follow, ActiveOf, Directed, AllLinked, Keyed, QuotesSpent, Referenced, QuoteProblem;
    if CreateOperation(s, cap, id, input, userKnown, walletVerified, now).1.Opened? {
      CreateAudited(s, cap, id, input, userKnown, walletVerified, now);
      CreateCapped(s.operations, cap, id, NewOperation(input, now));
      CreateRows(s, cap, id, input, userKnown, walletVerified, now, settled);
      CreateQuotes(s, cap, id, input, userKnown, walletVerified, now);
    }
  }

  lemma CreateRows(s: Store, cap: nat, id: Id, input: Request, userKnown: bool, walletVerified: bool, now: int,
                   settled: bool)
    requires Directed(s) && Keyed(s) && Referenced(s) && AllLinked(s, settled) && input.fingerprint.operationType == input.operationType
    requires CreateOperation(s, cap, id, input, userKnown, walletVerified, now).1.Opened?
    ensures var r := CreateOperation(s, cap, id, input, userKnown, walletVerified, now).0;
            Directed(r) && Keyed(r) && Referenced(r) && AllLinked(r, settled)
  {
    hide ActiveOf, QuoteProblem, Keyed;
    CreateKeyed(s, cap, id, input, userKnown, walletVerified, now);
  }

  lemma CreateKeyed(s: Store, cap: nat, id: Id, input: Request, userKnown: bool, walletVerified: bool, now: int)
    requires Keyed(s) && input.fingerprint.operationType == input.operationType
    requires CreateOperation(s, cap, id, input, userKnown, walletVerified, now).1.Opened?
    ensures Keyed(CreateOperation(s, cap, id, input, userKnown, walletVerified, now).0)
  {
    hide ActiveOf, QuoteProblem;
  }

  /** The quote is unspent when it is taken, so no earlier payment took it. */
  lemma CreateQuotes(s: Store, cap: nat, id: Id, input: Request, userKnown: bool, walletVerified: bool, now: int)
    requires QuotesSpent(s) && CreateOperation(s, cap, id, input, userKnown, walletVerified, now).1.Opened?
    ensures QuotesSpent(CreateOperation(s, cap, id, input, userKnown, walletVerified, now).0)
  {
    hide ActiveOf;
  }

  lemma CreateAudited(s: Store, cap: nat, id: Id, input: Request, userKnown: bool, walletVerified: bool, now: int)
    requires Audited(s) && CreateOperation(s, cap, id, input, userKnown, walletVerified, now).1.Opened?
    ensures Audited(CreateOperation(s, cap, id, input, userKnown, walletVerified, now).0)
  {
    hide ActiveOf;
    var r := CreateOperation(s, cap, id, input, userKnown, walletVerified, now).0;
    forall x: Id ensures Follow(r.log, x) == At(if x in r.operations then Some(r.operations[x].status) else None) {
      FollowAppend(s.log, Transition(id, None, Created, Local), x);
    }
  }

  lemma CreateCapped(operations: map<Id, Operation>, cap: nat, id: Id, row: Operation)
    requires Capped(operations, cap) && id !in operations && |ActiveOf(operations, row.user)| < cap
    ensures Capped(operations[id := row], cap)
  {
    var after := operations[id := row];
    forall user: Id ensures |ActiveOf(after, user)| <= cap {
      if user == row.user {
        SubsetSize(ActiveOf(after, user), ActiveOf(operations, user) + {id});
      } else {
        assert ActiveOf(after, user) == ActiveOf(operations, user);
      }
    }
  }

  // Asking the provider to start it.

  lemma ReferenceHealthy(s: Store, id: Id, reference: Id, cap: nat, settled: bool)
    requires Healthy(s, cap, settled) && id in s.operations && !ReferenceTaken(s, reference, id)
    ensures Healthy(WithReference(s, id, reference), cap, settled)
  {
    hide Audited, Capped, CanTransition, WellLinked, Directed, Keyed, QuotesSpent, AllLinked;
    var r := WithReference(s, id, reference);
    assert CanTransition(s.operations[id].status, r.operations[id].status) by { SelfEdge(s.operations[id].status); }
    RowHealthy(s, id, cap, settled);
    RowHealthyAs(s, id, r.operations[id], settled);
    MovesHealthy(s, r, id, cap, settled);
  }

  lemma SelfEdge(status: Status)
    ensures CanTransition(status, status)
  {
  }

  lemma RowHealthy(s: Store, id: Id, cap: nat, settled: bool)
    requires Healthy(s, cap, settled) && id in s.operations
    ensures RightDirection(s.operations[id]) && WellLinked(id, s.operations[id], s.chain, settled)
    ensures s.operations[id].fingerprint.operationType == s.operations[id].operationType
  {
    hide Audited, Capped, WellLinked, Referenced, QuotesSpent;
  }

  /** Columns other than the status and the links do not matter to the row's own invariants. */
  lemma RowHealthyAs(s: Store, id: Id, row: Operation, settled: bool)
    requires id in s.operations && RightDirection(s.operations[id]) && WellLinked(id, s.operations[id], s.chain, settled)
    requires SameRequest(s.operations[id], row) && SameLinks(s.operations[id], row)
    ensures WellLinked(id, row, s.chain, settled)
    ensures row.status == s.operations[id].status || row.status !in {AwaitingChain, ChainSubmitted} ==> RightDirection(row)
  {
  }

  /** One payment moves to a status its direction allows, its links untouched. */
  lemma MoveHealthy(s: Store, id: Id, row: Operation, source: Source, cap: nat, settled: bool)
    requires Healthy(s, cap, settled) && id in s.operations && row.reference == s.operations[id].reference
    requires SameRequest(s.operations[id], row) && SameLinks(s.operations[id], row)
    requires CanTransition(s.operations[id].status, row.status)
    requires || row.status == s.operations[id].status || row.operationType == Offramp
             || (row.status != AwaitingChain && row.status != ChainSubmitted)
    ensures Healthy(Moved(s, id, row, source), cap, settled)
  {
    hide Healthy, WellLinked, CanTransition;
    RowHealthy(s, id, cap, settled);
    RowHealthyAs(s, id, row, settled);
    MovedHealthy(s, id, row, source, cap, settled);
  }

  lemma BeginHealthy(s: Store, id: Id, now: int, cap: nat, settled: bool)
    requires Healthy(s, cap, settled)
    ensures Healthy(BeginInitiation(s, id, now).0, cap, settled)
  {
    hide Healthy;
    if BeginInitiation(s, id, now).1 == Began {
      var reference := if s.operations[id].reference.Some? then s.operations[id].reference.value else id;
      var t := WithReference(s, id, reference);
      ReferenceHealthy(s, id, reference, cap, settled);
      MoveHealthy(t, id, t.operations[id].(status := Initiating, nextReconcile := Some(now + 20)), Local, cap, settled);
    }
  }

  lemma CompleteHealthy(s: Store, id: Id, reference: Id, value: string, operationType: OperationType,
                        expiresAt: Option<int>,
                        now: int, cap: nat, settled: bool)
    requires Healthy(s, cap, settled) && (id in s.operations ==> operationType == s.operations[id].operationType)
    ensures Healthy(CompleteInitiation(s, id, reference, value, operationType, expiresAt, now).0, cap, settled)
  {
    hide Healthy, Normalize, AllowedNext;
    var (r, reply) := CompleteInitiation(s, id, reference, value, operationType, expiresAt, now);
    if reply == Ok {
      var t := if s.operations[id].reference == Some(reference) then s else WithReference(s, id, reference);
      if t != s {
        ReferenceHealthy(s, id, reference, cap, settled);
      }
      var next := Normalize(value, operationType);
      ProviderCannotName(value, operationType);
      MoveHealthy(t, id, WithStatus(t.operations[id], next, now)
                    .(expiresAt := expiresAt, reconcileAttempts := 0, nextReconcile := NextPoll(next, now)), Local, cap, settled);
    }
  }

  lemma FailureHealthy(s: Store, id: Id, ambiguous: bool, now: int, cap: nat, settled: bool)
    requires Healthy(s, cap, settled)
    ensures Healthy(RecordInitiationFailure(s, id, ambiguous, now), cap, settled)
  {
    hide Healthy;
    if id in s.operations && s.operations[id].status == Initiating {
      var next := if ambiguous then Unknown else Failed;
      MoveHealthy(s, id, s.operations[id].(status := next, nextReconcile := if ambiguous then Some(now) else None,
                                           reconcileAttempts := 0), Local, cap, settled);
    }
  }

  // What the provider says, through any of its three channels.

  lemma ApplyHealthy(s: Store, id: Id, value: string, expiresAt: Option<int>, now: int, cap: nat, settled: bool)
    requires Healthy(s, cap, settled)
    ensures Healthy(ApplyProviderStatus(s, id, value, expiresAt, now).0, cap, settled)
  {
    hide Healthy, Normalize, AllowedNext;
    if id in s.operations {
      var row := s.operations[id];
      var next := Normalize(value, row.operationType);
      if CanTransition(row.status, next) {
        ProviderCannotName(value, row.operationType);
        MoveHealthy(s, id, WithStatus(row, next, now)
                      .(expiresAt := Coalesce(expiresAt, row.expiresAt), reconcileAttempts := 0, reconcileLock := None,
                        nextReconcile := NextPoll(next, now)), FromReconciliation, cap, settled);
      }
    }
  }

  lemma ProcessHealthy(s: Store, i: nat, maxAttempts: nat, now: int, cap: nat, settled: bool)
    requires Healthy(s, cap, settled) && i < |s.inbox|
    ensures Healthy(ProcessWebhook(s, i, maxAttempts, now), cap, settled)
  {
    hide Healthy, Normalize, AllowedNext, RetryDelay;
    var hook := s.inbox[i];
    var r := ProcessWebhook(s, i, maxAttempts, now);
    if hook.operation !in s.operations {
      InboxIrrelevant(s, r.inbox, cap, settled);
    } else {
      var row := s.operations[hook.operation];
      var next := Normalize(hook.value, row.operationType);
      if row.status == next || !CanTransition(row.status, next) {
        InboxIrrelevant(s, r.inbox, cap, settled);
      } else {
        ProviderCannotName(hook.value, row.operationType);
        var moved := WithStatus(row, next, now).(reconcileAttempts := 0, nextReconcile := NextPoll(next, now));
        MoveHealthy(s, hook.operation, moved, FromWebhook, cap, settled);
        InboxIrrelevant(Moved(s, hook.operation, moved, FromWebhook), r.inbox, cap, settled);
      }
    }
  }

  lemma {:induction false} ProcessAllHealthy(s: Store, picked: seq<nat>, maxAttempts: nat, now: int, cap: nat,
                                             settled: bool)
    requires Healthy(s, cap, settled) && forall k :: 0 <= k < |picked| ==> picked[k] < |s.inbox|
    ensures Healthy(ProcessAll(s, picked, maxAttempts, now), cap, settled)
  {
    hide Healthy, ProcessWebhook;
    if picked != [] {
      ProcessAllHealthy(s, picked[..|picked| - 1], maxAttempts, now, cap, settled);
      ProcessHealthy(ProcessAll(s, picked[..|picked| - 1], maxAttempts, now), picked[|picked| - 1], maxAttempts, now, cap, settled);
    }
  }

  lemma ReconcileHealthy(s: Store, id: Id, value: Option<string>, attempt: nat, maxAttempts: nat, retryAt: int,
                         expiresAt: Option<int>, now: int, cap: nat, settled: bool)
    requires Healthy(s, cap, settled)
    ensures Healthy(RecordReconciliation(s, id, value, attempt, maxAttempts, retryAt, expiresAt, now), cap, settled)
  {
    hide Healthy, Normalize, AllowedNext;
    if id in s.operations {
      var row := s.operations[id];
      if value.Some? {
        ProviderCannotName(value.value, row.operationType);
      }
      MoveHealthy(s, id, Reconciled(row, value, attempt, maxAttempts, retryAt, expiresAt, now), FromReconciliation, cap, settled);
    }
  }

  lemma {:induction false} ClaimReconciliationHealthy(s: Store, ids: seq<Id>, lockSeconds: nat, now: int, cap: nat,
                                                      settled: bool)
    requires Healthy(s, cap, settled)
    ensures Healthy(ClaimReconciliation(s, ids, lockSeconds, now), cap, settled)
  {
    hide Healthy, CanTransition;
    if ids != [] {
      var t, id := ClaimReconciliation(s, ids[..|ids| - 1], lockSeconds, now), ids[|ids| - 1];
      ClaimReconciliationHealthy(s, ids[..|ids| - 1], lockSeconds, now, cap, settled);
      if id in t.operations {
        SelfEdge(t.operations[id].status);
        MoveHealthy(t, id, t.operations[id].(reconcileLock := Some(now + lockSeconds)), Local, cap, settled);
      }
    }
  }

  lemma {:induction false} ClaimConfirmationHealthy(s: Store, ids: seq<Id>, lockSeconds: nat, now: int, cap: nat,
                                                    settled: bool)
    requires Healthy(s, cap, settled)
    ensures Healthy(ClaimConfirmation(s, ids, lockSeconds, now), cap, settled)
  {
    hide Healthy, CanTransition;
    if ids != [] {
      var t, id := ClaimConfirmation(s, ids[..|ids| - 1], lockSeconds, now), ids[|ids| - 1];
      ClaimConfirmationHealthy(s, ids[..|ids| - 1], lockSeconds, now, cap, settled);
      if id in t.operations {
        SelfEdge(t.operations[id].status);
        MoveHealthy(t, id, t.operations[id].(confirmationLock := Some(now + lockSeconds)), Local, cap, settled);
      }
    }
  }

  /** The write to review is unguarded, yet every status it can overwrite has an edge to review, so the trail stays whole. */
  lemma ConfirmHealthy(s: Store, id: Id, acknowledged: bool, attempt: nat, retryAt: Option<int>, maxAttempts: nat,
                       now: int,
                       cap: nat, settled: bool)
    requires Healthy(s, cap, settled)
    ensures Healthy(RecordConfirmationAttempt(s, id, acknowledged, attempt, retryAt, maxAttempts, now), cap, settled)
  {
    hide Healthy, WellLinked, AllowedNext;
    if id in s.operations {
      var r := RecordConfirmationAttempt(s, id, acknowledged, attempt, retryAt, maxAttempts, now);
      var row := s.operations[id];
      RowHealthy(s, id, cap, settled);
      RowHealthyAs(s, id, r.operations[id], settled);
      GraphShape(row.status, row.status);
      if r.log != s.log {
        assert r.log == s.log + [Transition(id, Some(row.status), ManualReview, FromConfirmation)];
      }
      assert Moves(s, r, id);
      assert Referenced(r) by { ReferencesKept(s, r, id, cap, settled); }
      MovesHealthy(s, r, id, cap, settled);
    }
  }

  lemma ReferencesKept(s: Store, r: Store, id: Id, cap: nat, settled: bool)
    requires Healthy(s, cap, settled) && id in s.operations && id in r.operations
    requires r.operations == s.operations[id := r.operations[id]]
    requires r.byReference == s.byReference && r.operations[id].reference == s.operations[id].reference
    ensures Referenced(r)
  {
    hide Audited, Capped, Directed, Keyed, QuotesSpent, AllLinked;
  }

  // The chain.

  lemma BindHealthy(s: Store, user: Id, payment: Id, intent: Id, now: int, cap: nat, settled: bool)
    requires Healthy(s, cap, settled)
    ensures Healthy(BindTransferIntent(s, user, payment, intent, now).0, cap, settled)
  {
    hide Healthy, AllowedNext;
    var r := BindTransferIntent(s, user, payment, intent, now).0;
    if r != s {
      RowHealthy(s, payment, cap, settled);
      MovedHealthy(s, payment, r.operations[payment], Local, cap, settled);
    }
  }

  lemma LinkHealthy(s: Store, user: Id, payment: Id, record: Id, now: int, cap: nat, settled: bool)
    requires Healthy(s, cap, settled)
    ensures Healthy(LinkConfirmedChainTransaction(s, user, payment, record, now).0, cap, settled)
  {
    hide Healthy, AllowedNext;
    var r := LinkConfirmedChainTransaction(s, user, payment, record, now).0;
    if r != s {
      RowHealthy(s, payment, cap, settled);
      MovedHealthy(s, payment, r.operations[payment], Local, cap, settled);
    }
  }

  lemma LinkStays(id: Id, row: Operation, c: Tx.Chain, d: Tx.Chain, settled: bool)
    requires WellLinked(id, row, c, settled) && Tx.Extends(c, d)
    requires settled && row.record.Some? ==>
               var r := row.record.value; r in d.records && d.records[r].status == c.records[r].status
    ensures WellLinked(id, row, d, settled)
  {
    if row.intent.Some? {
      var i := row.intent.value;
      assert i in c.intents;
      assert i in d.intents;
    }
    if row.record.Some? {
      var r := row.record.value;
      assert r in c.records;
      assert r in d.records;
    }
  }

  lemma StoreAlike(s: Store, r: Store)
    requires s == r.(chain := s.chain) && Audited(s) && Directed(s) && Keyed(s) && Referenced(s) && QuotesSpent(s)
    ensures Audited(r) && Directed(r) && Keyed(r) && Referenced(r) && QuotesSpent(r)
  {
  }

  /** Whatever happens on chain leaves links in place; unless it unsettles a linked record it leaves them confirmed. */
  lemma ChainHealthy(s: Store, e: Tx.Timed, cap: nat, settled: bool)
    requires Healthy(s, cap, settled) && Tx.Linked(s.chain)
    requires settled ==> !Undoes(s, e)
    ensures Healthy(s.(chain := Tx.Step(s.chain, e)), cap, settled)
  {
    hide Audited, Capped, Directed, Keyed, Referenced, QuotesSpent, Tx.Step, Tx.Linked, Tx.Unsettles;
    Tx.StepLinked(s.chain, e);
    var r := s.(chain := Tx.Step(s.chain, e));
    forall id | id in r.operations ensures WellLinked(id, r.operations[id], r.chain, settled) {
      if settled && s.operations[id].record.Some? {
        Tx.StatusLostIff(s.chain, e, s.operations[id].record.value);
      }
      LinkStays(id, s.operations[id], s.chain, r.chain, settled);
    }
    StoreAlike(s, r);
  }

  lemma ActHealthy(s: Store, b: Background, now: int, cap: nat, settled: bool)
    requires Healthy(s, cap, settled) && Tx.Linked(s.chain)
    requires settled && b.OnChain? ==> !Undoes(s, Tx.Timed(now, b.step))
    ensures Healthy(Act(s, b, now), cap, settled)
  {
    hide Healthy, Tx.Linked, Undoes;
    match b
    case SavesQuote(quote, terms) => SaveQuoteHealthy(s, quote, terms, cap, settled);
    case Binds(user, payment, intent) => BindHealthy(s, user, payment, intent, now, cap, settled);
    case Applies(payment, value, expiresAt) => ApplyHealthy(s, payment, value, expiresAt, now, cap, settled);
    case StoresWebhook(digest, reference, operationType, value) =>
      InboxIrrelevant(s, Act(s, b, now).inbox, cap, settled);
    case ProcessesWebhooks(limit, maxAttempts) =>
      ProcessAllHealthy(s, DueWebhooks(s.inbox, limit, now), maxAttempts, now, cap, settled);
    case ClaimsReconciliation(ids, lockSeconds) => ClaimReconciliationHealthy(s, ids, lockSeconds, now, cap, settled);
    case Reconciles(payment, answer, attempt, maxAttempts, retryAt, expiresAt) =>
      ReconcileHealthy(s, payment, answer, attempt, maxAttempts, retryAt, expiresAt, now, cap, settled);
    case ClaimsConfirmation(ids, lockSeconds) => ClaimConfirmationHealthy(s, ids, lockSeconds, now, cap, settled);
    case Confirms(payment, acknowledged, attempt, next, maxAttempts) =>
      ConfirmHealthy(s, payment, acknowledged, attempt, next, maxAttempts, now, cap, settled);
    case Links(user, payment, record) => LinkHealthy(s, user, payment, record, now, cap, settled);
    case OnChain(step) => ChainHealthy(s, Tx.Timed(now, step), cap, settled);
  }
}
