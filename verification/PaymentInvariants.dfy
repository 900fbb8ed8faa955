/** What every payment transaction keeps: the audit trail, the cap, the directions, the unique keys and the chain links. */
module PaymentInvariants {
  import opened Prelude
  import opened PaymentStatuses
  import opened PaymentTables
  import Tx = Transactions

  // The audit trail of one payment, replayed from the log.

  datatype Trail = At(status: Option<Status>) | Broken

  predicate LegalLink(t: Transition) {
    match t.from
    case None => t.to == Created
    case Some(from) => CanTransition(from, t.to)
  }

  /** Follows the lines of one payment: each must start where the one before ended, along an allowed or self edge. */
  ghost function Follow(log: seq<Transition>, id: Id): Trail {
    if log == [] then At(None) else
      var earlier, last := Follow(log[..|log| - 1], id), log[|log| - 1];
      if last.operation != id then earlier
      else if earlier == At(last.from) && LegalLink(last) then At(Some(last.to))
      else Broken
  }

  lemma {:induction false} FollowAppend(log: seq<Transition>, t: Transition, id: Id)
    ensures Follow(log + [t], id) ==
            if t.operation != id then Follow(log, id)
            else if Follow(log, id) == At(t.from) && LegalLink(t) then At(Some(t.to)) else Broken
  {
    assert (log + [t])[..|log|] == log;
  }

  /** The lines of one payment, in order. */
  ghost function LinesOf(log: seq<Transition>, id: Id): seq<Transition> {
    if log == [] then [] else
      LinesOf(log[..|log| - 1], id) + (if log[|log| - 1].operation == id then [log[|log| - 1]] else [])
  }

  /** What an unbroken trail says of the lines themselves. */
  lemma {:induction false} TrailIsPath(log: seq<Transition>, id: Id)
    requires Follow(log, id).At?
    ensures var lines := LinesOf(log, id);
            && (Follow(log, id) == At(None) <==> lines == [])
            && (lines != [] ==> lines[0].from == None && lines[0].to == Created
                                && Follow(log, id) == At(Some(lines[|lines| - 1].to)))
            && (forall i :: 0 < i < |lines| ==> lines[i].from == Some(lines[i - 1].to) && CanTransition(lines[i - 1].to, lines[i].to))
  {
    if log != [] {
      TrailIsPath(log[..|log| - 1], id);
    }
  }

  ghost predicate Audited(s: Store) {
    forall id: Id :: Follow(s.log, id) == At(if id in s.operations then Some(s.operations[id].status) else None)
  }

  // The rest of the invariant.

  ghost predicate Capped(operations: map<Id, Operation>, cap: nat) {
    forall user: Id :: |ActiveOf(operations, user)| <= cap
  }

  predicate RightDirection(row: Operation) {
    row.operationType == Onramp ==>
      row.status != AwaitingChain && row.status != ChainSubmitted && row.intent.None? && row.record.None?
  }

  ghost predicate Directed(s: Store) {
    forall id :: id in s.operations ==> RightDirection(s.operations[id])
  }

  ghost predicate Keyed(s: Store) {
    && (forall id :: id in s.operations ==>
          var k := (s.operations[id].user, s.operations[id].key); k in s.byKey && s.byKey[k] == id)
    && (forall k :: k in s.byKey ==>
          && s.byKey[k] in s.operations
          && (s.operations[s.byKey[k]].user, s.operations[s.byKey[k]].key) == k)
    && (forall id :: id in s.operations ==> s.operations[id].fingerprint.operationType == s.operations[id].operationType)
  }

  ghost predicate Referenced(s: Store) {
    && (forall id :: id in s.operations && s.operations[id].reference.Some? ==>
          var r := s.operations[id].reference.value; r in s.byReference && s.byReference[r] == id)
    && (forall r :: r in s.byReference ==>
          s.byReference[r] in s.operations && s.operations[s.byReference[r]].reference == Some(r))
  }

  ghost predicate QuotesSpent(s: Store) {
    && (forall id :: id in s.operations && s.operations[id].quote.Some? ==>
          var q := s.operations[id].quote.value;
          && q in s.quotes && s.quotes[q].consumed && s.quotes[q].user == s.operations[id].user
          && s.quotes[q].operationType == s.operations[id].operationType)
    && (forall a, b ::
          a in s.operations && b in s.operations && s.operations[a].quote.Some? && s.operations[a].quote == s.operations[b].quote
          ==> a == b)
  }

  /**
   * A bound intent was made for this payment; a linked transfer is the broadcast of that intent, and is confirmed as
   * long as no linked record is unsettled.
   */
  ghost predicate WellLinked(id: Id, row: Operation, chain: Tx.Chain, settled: bool) {
    && (row.intent.Some? ==>
          && row.intent.value in chain.intents
          && var intent := chain.intents[row.intent.value];
             && intent.payment == Some(id) && intent.user == row.user && Some(intent.account) == row.account
             && Some(intent.network) == row.network)
    && (row.record.Some? <==> row.chainTxHash.Some?)
    && (row.record.Some? ==>
          && row.record.value in chain.records
          && var found := chain.records[row.record.value];
             && (settled ==> found.status == Tx.Confirmed) && row.chainTxHash == Some(found.txHash) && row.intent == Some(found.intent))
  }

  /** The step unsettles a record that a payment is linked to. */
  ghost predicate Undoes(s: Store, e: Tx.Timed) {
    exists id ::
      id in s.operations && s.operations[id].record.Some? && Tx.Unsettles(s.chain, e, s.operations[id].record.value)
  }

  ghost predicate AllLinked(s: Store, settled: bool) {
    forall id :: id in s.operations ==> WellLinked(id, s.operations[id], s.chain, settled)
  }

  ghost predicate Healthy(s: Store, cap: nat, settled: bool) {
    Audited(s) && Capped(s.operations, cap) && Directed(s) && Keyed(s) && Referenced(s) && QuotesSpent(s) && AllLinked(s, settled)
  }

  lemma EmptyHealthy(cap: nat, settled: bool)
    ensures Healthy(EmptyStore, cap, settled)
  {
    forall user: Id ensures ActiveOf(map[], user) == {} {
    }
  }

  // One payment moves along one edge; everything else stays.

  predicate SameRequest(a: Operation, b: Operation) {
    && a.user == b.user && a.operationType == b.operationType && a.key == b.key && a.fingerprint == b.fingerprint
    && a.quote == b.quote
  }

  predicate SameLinks(a: Operation, b: Operation) {
    && a.account == b.account && a.network == b.network
    && a.intent == b.intent && a.record == b.record && a.chainTxHash == b.chainTxHash
  }

  /** At most one payment changed, its status along an allowed edge, with one line in the log if it changed. */
  ghost predicate Moves(s: Store, r: Store, id: Id) {
    && id in s.operations && id in r.operations && r.operations == s.operations[id := r.operations[id]]
    && SameRequest(s.operations[id], r.operations[id])
    && r.byKey == s.byKey && r.quotes == s.quotes && r.chain == s.chain
    && CanTransition(s.operations[id].status, r.operations[id].status)
    && (r.log == s.log ==> r.operations[id].status == s.operations[id].status)
    && (r.log != s.log ==>
          exists source :: r.log == s.log + [Transition(id, Some(s.operations[id].status), r.operations[id].status, source)])
  }

  lemma MovesAudited(s: Store, r: Store, id: Id)
    requires Audited(s) && Moves(s, r, id)
    ensures Audited(r)
  {
    if r.log != s.log {
      var source :| r.log == s.log + [Transition(id, Some(s.operations[id].status), r.operations[id].status, source)];
      forall x: Id ensures Follow(r.log, x) == At(if x in r.operations then Some(r.operations[x].status) else None) {
        FollowAppend(s.log, Transition(id, Some(s.operations[id].status), r.operations[id].status, source), x);
      }
    }
  }

  lemma SubsetSize<T>(a: set<T>, b: set<T>)
    requires a <= b
    ensures |a| <= |b|
  {
    assert b == a + (b - a);
  }

  /** No allowed edge leads back to an active status, so no user gains an active payment. */
  lemma MovesCapped(s: Store, r: Store, id: Id, cap: nat)
    requires Capped(s.operations, cap) && Moves(s, r, id)
    ensures Capped(r.operations, cap)
  {
    hide AllowedNext;
    GraphShape(s.operations[id].status, r.operations[id].status);
    GraphShape(r.operations[id].status, r.operations[id].status);
    forall user: Id ensures |ActiveOf(r.operations, user)| <= cap {
      SubsetSize(ActiveOf(r.operations, user), ActiveOf(s.operations, user));
    }
  }

  lemma MovesHealthy(s: Store, r: Store, id: Id, cap: nat, settled: bool)
    requires Healthy(s, cap, settled) && Moves(s, r, id) && RightDirection(r.operations[id])
    requires WellLinked(id, r.operations[id], s.chain, settled) && Referenced(r)
    ensures Healthy(r, cap, settled)
  {
    hide Audited, Capped, CanTransition, WellLinked, Referenced;
    MovesAudited(s, r, id);
    MovesCapped(s, r, id, cap);
  }

  lemma MovedHealthy(s: Store, id: Id, row: Operation, source: Source, cap: nat, settled: bool)
    requires Healthy(s, cap, settled) && id in s.operations && SameRequest(s.operations[id], row)
    requires CanTransition(s.operations[id].status, row.status) && RightDirection(row)
    requires row.reference == s.operations[id].reference && WellLinked(id, row, s.chain, settled)
    ensures Healthy(Moved(s, id, row, source), cap, settled)
  {
    hide Audited, Capped, CanTransition, WellLinked, Directed, Keyed, QuotesSpent, AllLinked;
    var r := Moved(s, id, row, source);
    MovesHealthy(s, r, id, cap, settled);
  }
}
