/** The worker's loops and the request that starts a payment, as sequences of repository calls. */
module PaymentServices {
  import opened Prelude
  import opened PaymentStatuses
  import opened PaymentTables
  import opened PaymentPolling
  import opened PaymentWork
  import PaymentJourneys
  import PaymentRepository

  /** A confirmed transfer found for a payment that waits for one. */
  datatype Link = Link(user: Id, payment: Id, record: Id)

  /** Each link is tried; one that is refused leaves the others to be tried. */
  function LinkedAll(s: Store, links: seq<Link>, now: int): Store {
    if links == [] then s else
      var last := links[|links| - 1];
      LinkConfirmedChainTransaction(LinkedAll(s, links[..|links| - 1], now), last.user, last.payment, last.record, now).0
  }

  class Worker {
    const repository: PaymentRepository.Repository
    const lockSeconds: nat
    const maxAttempts: nat

    constructor (repository: PaymentRepository.Repository, lockSeconds: nat, maxAttempts: nat)
      ensures this.repository == repository && this.lockSeconds == lockSeconds && this.maxAttempts == maxAttempts
    {
      this.repository := repository;
      this.lockSeconds := lockSeconds;
      this.maxAttempts := maxAttempts;
    }

    method LinkConfirmedTransferIntents(links: seq<Link>, now: int)
      modifies repository
      ensures repository.Snapshot() == LinkedAll(old(repository.Snapshot()), links, now)
    {
      hide LinkConfirmedChainTransaction;
      for i := 0 to |links|
        invariant repository.Snapshot() == LinkedAll(old(repository.Snapshot()), links[..i], now)
      {
        assert links[..i + 1][..i] == links[..i];
        var _ := repository.LinkConfirmedChainTransaction(links[i].user, links[i].payment, links[i].record, now);
      }
      assert links[..|links|] == links;
    }

    /** Claims what is due and records, for each, one more attempt with the provider's answer. */
    method ReconcileDueOperations(ids: seq<Id>, answers: map<Id, Answer>, now: int)
      modifies repository
      ensures repository.Snapshot() ==
        AfterPass(old(repository.Snapshot()), Pass(ids, answers, now), lockSeconds, maxAttempts)
    {
      hide ClaimReconciliation, DueWork, Reconciled, RetryDelay;
      var work := repository.ClaimReconciliationBatch(ids, lockSeconds, now);
      ghost var claimed := repository.Snapshot();
      for i := 0 to |work|
        invariant repository.Snapshot() == Polled(claimed, work[..i], answers, maxAttempts, now)
      {
        assert work[..i + 1][..i] == work[..i];
        var id, attempt := work[i].operation, work[i].attempts + 1;
        var retryAt := now + RetryDelay(attempt);
        if id in answers {
          repository.RecordReconciliation(id, Some(answers[id].value), attempt, maxAttempts, retryAt, answers[id].expiresAt, now);
        } else {
          repository.RecordReconciliation(id, None, attempt, maxAttempts, retryAt, None, now);
        }
      }
      assert work[..|work|] == work;
    }
  }

  class Journeys {
    const repository: PaymentRepository.Repository

    constructor (repository: PaymentRepository.Repository)
      ensures this.repository == repository
    {
      this.repository := repository;
    }

    /**
     * The provider is asked only by the caller that took the payment out of `created`; what it answers is written
     * before anything else happens to the request.
     */
    method InitiateProviderOperation(id: Id, direction: OperationType, answer: PaymentJourneys.Answer, now: int,
                                     later: int)
      returns (asked: bool)
      modifies repository
      ensures var (begun, reply) := BeginInitiation(old(repository.Snapshot()), id, now);
              && asked == (reply == Began)
              && (asked ==> id in old(repository.operations) && old(repository.operations)[id].status == Created
                            && id in begun.operations && begun.operations[id].status == Initiating)
              && repository.Snapshot() ==
                   if !asked then begun else
                     match answer
                     case Refusal(ambiguous) => RecordInitiationFailure(begun, id, ambiguous, later)
                     case Acceptance(reference, value, expiresAt) =>
                       CompleteInitiation(begun, id, reference, value, direction, expiresAt, later).0
    {
      hide CompleteInitiation, RecordInitiationFailure;
      var began := repository.BeginInitiation(id, now);
      if began != Began {
        return false;
      }
      match answer {
        case Refusal(ambiguous) => repository.RecordInitiationFailure(id, ambiguous, later);
        case Acceptance(reference, value, expiresAt) =>
          var _ := repository.CompleteInitiation(id, reference, value, direction, expiresAt, later);
      }
      asked := true;
    }
  }
}
