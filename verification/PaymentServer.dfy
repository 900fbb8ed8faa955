/** Requests served step by step over the payment repository, and its agreement with the runs of PaymentJourneys. */
module PaymentServer {
  import opened Prelude
  import opened PaymentStatuses
  import opened PaymentTables
  import opened PaymentJourneys
  import PaymentRepository

  class Server {
    const repository: PaymentRepository.Repository
    /** Requests being served, each at the stage it has reached. */
    var serving: map<Id, Served>
    /** The payments for which the provider was asked to initiate. */
    var calls: seq<Id>

    ghost function Snapshot(): System
      reads this, repository, repository.transactions
    {
      System(repository.Snapshot(), serving, calls)
    }

    constructor (repository: PaymentRepository.Repository)
      requires repository.Snapshot() == EmptyStore
      ensures this.repository == repository && Snapshot() == EmptySystem
    {
      this.repository := repository;
      serving, calls := map[], [];
    }

    method Proceed(request: Id, stage: Stage)
      requires request in serving
      modifies `serving
      ensures Snapshot() == At(old(Snapshot()), request, stage)
    {
      serving := serving[request := serving[request].(stage := stage)];
    }

    method Drop(request: Id)
      modifies `serving
      ensures Snapshot() == Finish(old(Snapshot()), request)
    {
      serving := serving - {request};
    }

    method Arrive(e: Event)
      requires e.Arrives?
      modifies `serving
      ensures Snapshot() == PaymentJourneys.Arrive(old(Snapshot()), e)
    {
      if e.request in serving {
        return;
      }
      var input := Request(e.user, e.operationType, e.key, Fingerprint(e.operationType, e.material), Some(e.quote),
                           Some(e.account), Some(e.network), Some(e.expiresAt));
      serving := serving[e.request := Served(input, Arrived)];
    }

    method LookUp(request: Id)
      modifies `serving
      ensures Snapshot() == PaymentJourneys.LookUp(old(Snapshot()), request)
    {
      if request !in serving || serving[request].stage != Arrived {
        return;
      }
      var input := serving[request].input;
      var k := (input.user, input.key);
      if k in repository.byKey && repository.byKey[k] in repository.operations {
        var row := repository.operations[repository.byKey[k]];
        if row.fingerprint != input.fingerprint || row.status != Created {
          Drop(request);
          return;
        }
      }
      Proceed(request, Looked);
    }

    method Open(request: Id, id: Id, userKnown: bool, walletVerified: bool, now: int)
      modifies `serving, repository
      ensures Snapshot() ==
        PaymentJourneys.Open(old(Snapshot()), repository.maxActiveOperationsPerUser, request, id, userKnown,
                             walletVerified, now)
    {
      hide PaymentTables.CreateOperation;
      if request !in serving || serving[request].stage != Looked {
        return;
      }
      var reply := repository.CreateOperation(id, serving[request].input, userKnown, walletVerified, now);
      CreateReplies(old(repository.Snapshot()), repository.maxActiveOperationsPerUser, id, old(serving)[request].input,
                    userKnown, walletVerified, now);
      match reply
      case Opened(made) => Proceed(request, Ready(made));
      case Replayed(existing) => Proceed(request, Ready(existing));
      case _ => Drop(request);
    }

    method Begin(request: Id, now: int)
      modifies `serving, repository
      ensures Snapshot() == PaymentJourneys.Begin(old(Snapshot()), request, now)
    {
      hide PaymentTables.BeginInitiation;
      if request !in serving || !serving[request].stage.Ready? {
        return;
      }
      var id := serving[request].stage.id;
      var reply := repository.BeginInitiation(id, now);
      BeginReplies(old(repository.Snapshot()), id, now);
      if reply == Began {
        Proceed(request, Asking(id));
      } else {
        Drop(request);
      }
    }

    /** The call to the provider goes out. */
    method Ask(request: Id)
      modifies `serving, `calls
      ensures Snapshot() == PaymentJourneys.Ask(old(Snapshot()), request)
    {
      if request in serving && serving[request].stage.Asking? {
        var id := serving[request].stage.id;
        calls := calls + [id];
        Proceed(request, Awaiting(id));
      }
    }

    method Hear(request: Id, answer: Answer, now: int)
      modifies `serving, repository
      ensures Snapshot() == PaymentJourneys.Hear(old(Snapshot()), request, answer, now)
    {
      hide RecordInitiationFailure, CompleteInitiation;
      if request !in serving || !serving[request].stage.Awaiting? {
        return;
      }
      var id, input := serving[request].stage.id, serving[request].input;
      match answer {
        case Refusal(ambiguous) => repository.RecordInitiationFailure(id, ambiguous, now);
        case Acceptance(reference, value, expiresAt) =>
          var _ := repository.CompleteInitiation(id, reference, value, input.operationType, expiresAt, now);
      }
      Drop(request);
    }

    method Apply(event: Timed)
      modifies this, repository, repository.transactions
      ensures Snapshot() == Step(old(Snapshot()), repository.maxActiveOperationsPerUser, event)
    {
      hide PaymentJourneys.Arrive, PaymentJourneys.LookUp, PaymentJourneys.Open, PaymentJourneys.Begin,
        PaymentJourneys.Ask, PaymentJourneys.Hear, Act;
      match event.event
      case Arrives(_, _, _, _, _, _, _, _, _) => Arrive(event.event);
      case LooksUp(request) => LookUp(request);
      case Opens(request, id, userKnown, walletVerified) => Open(request, id, userKnown, walletVerified, event.now);
      case Begins(request) => Begin(request, event.now);
      case Asks(request) => Ask(request);
      case Hears(request, answer) => Hear(request, answer, event.now);
      case Abandons(request) => Drop(request);
      case Happens(act) => repository.Perform(act, event.now);
    }

    /** Whatever arrives, in whatever order, the server is in the state the run gives. */
    method Perform(event: Timed, ghost events: seq<Timed>)
      requires Snapshot() == Run(repository.maxActiveOperationsPerUser, events)
      modifies this, repository, repository.transactions
      ensures Snapshot() == Run(repository.maxActiveOperationsPerUser, events + [event])
    {
      hide Step;
      assert (events + [event])[..|events|] == events;
      Apply(event);
    }
  }

  /** A payment that is not opened leaves the tables alone. */
  lemma CreateReplies(s: Store, cap: nat, id: Id, input: Request, userKnown: bool, walletVerified: bool, now: int)
    ensures !CreateOperation(s, cap, id, input, userKnown, walletVerified, now).1.Opened? ==>
              CreateOperation(s, cap, id, input, userKnown, walletVerified, now).0 == s
  {
    hide ActiveOf;
  }

  lemma BeginReplies(s: Store, id: Id, now: int)
    ensures BeginInitiation(s, id, now).1 != Began ==> BeginInitiation(s, id, now).0 == s
  {
    hide AllowedNext;
  }
}
