/**
 * How long the reconciliation worker keeps asking about one payment.
 *
 * The worker is meant to hand a payment to review after its last attempt. It does not when the provider's answer is a
 * finished status the graph forbids: then neither the answer nor the escalation is written. These lemmas say exactly
 * when polling ends.
 */
module PaymentPolling {
  import opened Prelude
  import opened PaymentStatuses
  import opened PaymentTables
  import opened PaymentWork
  import opened Strings

  /** One poll: the provider's answer, if there was a usable one, and the times written back. */
  datatype Poll = Poll(answer: Option<string>, retryAt: int, expiresAt: Option<int>, now: int)

  ghost predicate EverClaimable(row: Operation) {
    exists now: int :: Reconcilable(row, now)
  }

  lemma ClaimableWhen(row: Operation)
    ensures EverClaimable(row) <==>
            row.reference.Some? && !IsTerminal(row.status) && row.status != ManualReview && row.nextReconcile.Some?
  {
    if row.reference.Some? && !IsTerminal(row.status) && row.status != ManualReview && row.nextReconcile.Some? {
      var lock := if row.reconcileLock.Some? then row.reconcileLock.value else row.nextReconcile.value;
      var late := if lock < row.nextReconcile.value then row.nextReconcile.value else lock + 1;
      assert Reconcilable(row, late);
    }
  }

  /** The claimed attempt count goes up by one with every poll. */
  function AfterPoll(row: Operation, p: Poll, maxAttempts: nat): Operation {
    Reconciled(row, p.answer, row.reconcileAttempts + 1, maxAttempts, p.retryAt, p.expiresAt, p.now)
  }

  /** Polls in order; a payment that can no longer be claimed is not polled again. */
  ghost function AfterPolls(row: Operation, polls: seq<Poll>, maxAttempts: nat): Operation {
    if polls == [] then row else
      var before := AfterPolls(row, polls[..|polls| - 1], maxAttempts);
      if EverClaimable(before) then AfterPoll(before, polls[|polls| - 1], maxAttempts) else before
  }

  /** The answer finishes the payment. */
  predicate Finishes(row: Operation, p: Poll) {
    && p.answer.Some? && p.answer.value != ""
    && var next := Normalize(p.answer.value, row.operationType); IsTerminal(next) && CanTransition(row.status, next)
  }

  /** The answer is a finished status with no edge from the payment's current one. */
  predicate Forbidden(row: Operation, p: Poll) {
    && p.answer.Some? && p.answer.value != ""
    && var next := Normalize(p.answer.value, row.operationType); IsTerminal(next) && !CanTransition(row.status, next)
  }

  /** One poll: before the last attempt only a finishing answer ends the polling; from then on only a forbidden one prolongs it. */
  lemma PollEnds(row: Operation, p: Poll, maxAttempts: nat)
    requires EverClaimable(row)
    ensures var next := AfterPoll(row, p, maxAttempts);
            && next.reconcileAttempts == row.reconcileAttempts + 1 && next.operationType == row.operationType
            && (EverClaimable(next) <==>
                  if row.reconcileAttempts + 1 < maxAttempts then !Finishes(row, p) else Forbidden(row, p))
  {
    hide EverClaimable, Reconcilable, Normalize, AllowedNext;
    ClaimableWhen(row);
    ClaimableWhen(AfterPoll(row, p, maxAttempts));
    GraphShape(row.status, row.status);
    if p.answer.Some? {
      ProviderCannotName(p.answer.value, row.operationType);
    }
  }

  /** Whether the payment is still polled after all these polls, exactly. */
  lemma {:induction false} StillPolledIff(row: Operation, polls: seq<Poll>, maxAttempts: nat)
    requires EverClaimable(row)
    ensures EverClaimable(AfterPolls(row, polls, maxAttempts)) <==>
            forall k :: 0 <= k < |polls| ==>
              var before := AfterPolls(row, polls[..k], maxAttempts);
              if row.reconcileAttempts + k + 1 < maxAttempts then !Finishes(before, polls[k]) else Forbidden(before, polls[k])
    ensures EverClaimable(AfterPolls(row, polls, maxAttempts)) ==>
              AfterPolls(row, polls, maxAttempts).reconcileAttempts == row.reconcileAttempts + |polls|
  {
    hide EverClaimable, Finishes, Forbidden, AfterPoll;
    if polls != [] {
      var init := polls[..|polls| - 1];
      StillPolledIff(row, init, maxAttempts);
      assert forall k :: 0 <= k <= |init| ==> init[..k] == polls[..k];
      if EverClaimable(AfterPolls(row, init, maxAttempts)) {
        PollEnds(AfterPolls(row, init, maxAttempts), polls[|polls| - 1], maxAttempts);
      }
    }
  }

  /**
   * Provided every finished status the provider reports has an edge from the status the payment has then, the worker
   * is done with the payment when its attempts are used up, whatever else the answers are.
   */
  lemma {:induction false} LeavesWithinAttempts(row: Operation, polls: seq<Poll>, maxAttempts: nat)
    requires EverClaimable(row) && polls != [] && row.reconcileAttempts + |polls| >= maxAttempts
    requires forall k :: 0 <= k < |polls| ==> !Forbidden(AfterPolls(row, polls[..k], maxAttempts), polls[k])
    ensures !EverClaimable(AfterPolls(row, polls, maxAttempts))
  {
    hide EverClaimable, Finishes, Forbidden, AfterPolls;
    StillPolledIff(row, polls, maxAttempts);
    var last := |polls| - 1;
    assert !Forbidden(AfterPolls(row, polls[..last], maxAttempts), polls[last]);
  }

  /** Without that, polling need not end: a payment in `processing` that the provider calls expired is polled for ever. */
  lemma {:induction false} PolledForEver(row: Operation, polls: seq<Poll>, maxAttempts: nat)
    requires EverClaimable(row) && row.status == Processing
    requires forall k :: 0 <= k < |polls| ==> polls[k].answer == Some("EXPIRED")
    ensures var after := AfterPolls(row, polls, maxAttempts);
            EverClaimable(after) && after.status == Processing && after.reconcileAttempts == row.reconcileAttempts + |polls|
  {
    hide EverClaimable, Reconcilable, Normalize;
    if polls != [] {
      var before, last := AfterPolls(row, polls[..|polls| - 1], maxAttempts), polls[|polls| - 1];
      PolledForEver(row, polls[..|polls| - 1], maxAttempts);
      ExpiredIsExpired(before.operationType);
      PollEnds(before, last, maxAttempts);
    }
  }

  lemma ExpiredIsExpired(operationType: OperationType)
    ensures Normalize("EXPIRED", operationType) == Expired
  {
    hide Upper;
    var word := "EXPIRED";
    assert TrimStart(word) == word && TrimEnd(word) == word;
    UpperAlready(word);
  }

  lemma {:induction false} UpperAlready(s: string)
    requires forall i :: 0 <= i < |s| ==> UpperChar(s[i]) == s[i]
    ensures Upper(s) == s
  {
    if s != [] {
      UpperAlready(s[1..]);
      assert s == [s[0]] + s[1..];
    }
  }

  /** Every polled status but `unknown` has such an answer, so the hypothesis is needed from every one of them. */
  lemma OnlyUnknownIsSafe(status: Status)
    requires !IsTerminal(status) && status != ManualReview
    ensures (forall next :: IsTerminal(next) ==> CanTransition(status, next)) <==> status == Unknown
  {
    assert status != Unknown ==> !CanTransition(status, Reversed) || !CanTransition(status, Expired);
  }

  // The polls a payment gets are those of the worker's passes.

  /** One pass of the worker: the payments it looks at and what the provider answers about them. */
  datatype Pass = Pass(ids: seq<Id>, answers: map<Id, Answer>, now: int)

  function AfterPass(s: Store, p: Pass, lockSeconds: nat, maxAttempts: nat): Store {
    var claimed := ClaimReconciliation(s, p.ids, lockSeconds, p.now);
    Polled(claimed, DueWork(s.operations, p.ids, p.now), p.answers, maxAttempts, p.now)
  }

  function AfterPasses(s: Store, passes: seq<Pass>, lockSeconds: nat, maxAttempts: nat): Store {
    if passes == [] then s else
      var before := AfterPasses(s, passes[..|passes| - 1], lockSeconds, maxAttempts);
      AfterPass(before, passes[|passes| - 1], lockSeconds, maxAttempts)
  }

  /** The poll a due payment gets in a pass. */
  function PollIn(row: Operation, p: Pass, id: Id): Poll {
    var retryAt := p.now + RetryDelay(row.reconcileAttempts + 1);
    if id in p.answers then Poll(Some(p.answers[id].value), retryAt, p.answers[id].expiresAt, p.now)
    else Poll(None, retryAt, None, p.now)
  }

  /** The polls a payment gets in all these passes, one from each pass that finds it due. */
  ghost function PollsIn(s: Store, passes: seq<Pass>, lockSeconds: nat, maxAttempts: nat, id: Id): seq<Poll> {
    if passes == [] then [] else
      var init, last := passes[..|passes| - 1], passes[|passes| - 1];
      var earlier, t := PollsIn(s, init, lockSeconds, maxAttempts, id), AfterPasses(s, init, lockSeconds, maxAttempts);
      if id in t.operations && id in last.ids && Reconcilable(t.operations[id], last.now)
      then earlier + [PollIn(t.operations[id], last, id)] else earlier
  }

  /** Whatever passes the worker makes, a payment stands where its own polls leave it. */
  lemma {:induction false} PassesArePolls(s: Store, passes: seq<Pass>, lockSeconds: nat, maxAttempts: nat, id: Id)
    requires id in s.operations
    ensures id in AfterPasses(s, passes, lockSeconds, maxAttempts).operations
    ensures AfterPasses(s, passes, lockSeconds, maxAttempts).operations[id] ==
            AfterPolls(s.operations[id], PollsIn(s, passes, lockSeconds, maxAttempts, id), maxAttempts)
  {
    hide Polled, ClaimReconciliation, DueWork, Reconcilable, Reconciled, RetryDelay, EverClaimable;
    if passes != [] {
      var init, last := passes[..|passes| - 1], passes[|passes| - 1];
      PassesArePolls(s, init, lockSeconds, maxAttempts, id);
      var t := AfterPasses(s, init, lockSeconds, maxAttempts);
      PassPollsDueOnce(t, last.ids, last.answers, lockSeconds, maxAttempts, last.now, id);
      if id in last.ids && Reconcilable(t.operations[id], last.now) {
        var earlier, poll := PollsIn(s, init, lockSeconds, maxAttempts, id), PollIn(t.operations[id], last, id);
        assert EverClaimable(t.operations[id]) by { NowClaimable(t.operations[id], last.now); }
        assert (earlier + [poll])[..|earlier|] == earlier;
      }
    }
  }

  lemma NowClaimable(row: Operation, now: int)
    requires Reconcilable(row, now)
    ensures EverClaimable(row)
  {
  }
}
