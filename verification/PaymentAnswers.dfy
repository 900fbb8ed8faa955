/** What the provider's words mean, which statuses may follow which, and what each word does to a payment it reaches. */
module PaymentAnswers {
  import opened Prelude
  import opened Strings
  import opened PaymentStatuses
  import opened PaymentTables

  // Words.

  /** A word of capital letters and underscores. */
  ghost predicate Capital(word: string) {
    word != "" && forall i :: 0 <= i < |word| ==> 'A' <= word[i] <= 'Z' || word[i] == '_'
  }

  /** The text is this word, in large or small letters, with white space around it. */
  ghost predicate Spells(value: string, word: string) {
    exists i, j :: 0 <= i <= j <= |value| && j - i == |word| && SpelledAt(value, word, i, j)
  }

  ghost predicate SpelledAt(value: string, word: string, i: int, j: int)
    requires 0 <= i <= j <= |value| && j - i == |word|
  {
    && (forall k :: 0 <= k < i || j <= k < |value| ==> IsSpace(value[k]))
    && (forall k :: 0 <= k < |word| ==>
          value[i + k] == word[k] || ('A' <= word[k] <= 'Z' && value[i + k] as int == word[k] as int + 32))
  }

  lemma {:induction false} SpellsIff(value: string, word: string)
    requires Capital(word)
    ensures Spells(value, word) <==> Upper(TrimEnd(TrimStart(value))) == word
  {
    hide SpelledAt, Capital, Upper, TrimEnd, TrimStart;
    if i, j :| 0 <= i <= j <= |value| && j - i == |word| && SpelledAt(value, word, i, j) {
      SpelledReads(value, word, i, j);
    }
    if Upper(TrimEnd(TrimStart(value))) == word {
      ReadsSpelled(value, word);
    }
  }

  lemma {:induction false} SpelledReads(value: string, word: string, i: nat, j: nat)
    requires Capital(word) && i <= j <= |value| && j - i == |word| && SpelledAt(value, word, i, j)
    ensures Upper(TrimEnd(TrimStart(value))) == word
  {
    hide Upper, TrimEnd, TrimStart, IsSpace;
    var before, core, after := value[..i], value[i..j], value[j..];
    assert value == before + (core + after);
    assert forall k :: 0 <= k < |after| ==> after[k] == value[j + k];
    assert forall k :: 0 <= k < |core| ==> core[k] == value[i + k];
    LeadingSpace(before, core + after);
    TrimmedPadding(core, after);
    CoreReads(core, word);
  }

  lemma {:induction false} CoreReads(core: string, word: string)
    requires Capital(word) && |core| == |word|
    requires forall k :: 0 <= k < |word| ==>
               core[k] == word[k] || ('A' <= word[k] <= 'Z' && core[k] as int == word[k] as int + 32)
    ensures Upper(TrimEnd(TrimStart(core))) == word
  {
    hide Upper, TrimEnd, TrimStart, IsSpace;
    UpperEach(core);
    assert forall k :: 0 <= k < |core| ==> UpperChar(core[k]) == word[k];
    assert Upper(core) == word;
    LettersAreNoSpace(core[0], word[0]);
    LettersAreNoSpace(core[|core| - 1], word[|word| - 1]);
    NothingTrimmed(core);
  }

  lemma LettersAreNoSpace(c: char, d: char)
    requires ('A' <= d <= 'Z' || d == '_') && (c == d || ('A' <= d <= 'Z' && c as int == d as int + 32))
    ensures !IsSpace(c)
  {
  }

  lemma {:induction false} ReadsSpelled(value: string, word: string)
    requires Capital(word) && Upper(TrimEnd(TrimStart(value))) == word
    ensures Spells(value, word)
  {
    hide Upper, TrimEnd, TrimStart, IsSpace;
    var core := TrimEnd(TrimStart(value));
    var i := TrimmedAt(value);
    UpperEach(core);
    assert forall k :: 0 <= k < |core| ==> core[k] == value[i + k];
    assert SpelledAt(value, word, i, i + |core|);
  }

  lemma {:induction false} UpperEach(s: string)
    ensures |Upper(s)| == |s| && forall k :: 0 <= k < |s| ==> Upper(s)[k] == UpperChar(s[k])
  {
    if s != [] {
      UpperEach(s[1..]);
    }
  }

  lemma {:induction false} NothingTrimmed(s: string)
    requires s != "" && !IsSpace(s[0]) && !IsSpace(s[|s| - 1])
    ensures TrimEnd(TrimStart(s)) == s
  {
  }

  /** Where in a string its trimmed part is; all around it is white space. */
  lemma {:induction false} TrimmedAt(s: string) returns (i: nat)
    ensures var core := TrimEnd(TrimStart(s));
            && i + |core| <= |s| && core == s[i..i + |core|]
            && forall k :: 0 <= k < i || i + |core| <= k < |s| ==> IsSpace(s[k])
  {
    if s != "" && IsSpace(s[0]) {
      var j := TrimmedAt(s[1..]);
      i := j + 1;
      assert forall k :: 1 <= k < |s| ==> s[k] == s[1..][k - 1];
    } else {
      i := 0;
      EndTrimmed(s);
    }
  }

  lemma {:induction false} EndTrimmed(s: string)
    ensures TrimEnd(s) <= s && forall k :: |TrimEnd(s)| <= k < |s| ==> IsSpace(s[k])
  {
    if s != "" && IsSpace(s[|s| - 1]) {
      EndTrimmed(s[..|s| - 1]);
    }
  }

  ghost predicate KnownWord(value: string) {
    || Spells(value, "AWAITING_DEPOSIT") || Spells(value, "AWAITING_PAYMENT") || Spells(value, "PROCESSING")
    || Spells(value, "COMPLETED") || Spells(value, "SUCCESS") || Spells(value, "FAILED") || Spells(value, "EXPIRED")
    || Spells(value, "BLOCKED") || Spells(value, "SCHEDULED") || Spells(value, "REVERSED")
  }

  /** The ten words the provider uses, however spelled; any other text is `unknown`. */
  lemma {:induction false} WordsMean(value: string, operationType: OperationType)
    ensures Spells(value, "AWAITING_DEPOSIT") ==>
              Normalize(value, operationType) == if operationType == Onramp then AwaitingFiat else AwaitingChain
    ensures Spells(value, "AWAITING_PAYMENT") ==> Normalize(value, operationType) == AwaitingFiat
    ensures Spells(value, "PROCESSING") ==> Normalize(value, operationType) == Processing
    ensures Spells(value, "COMPLETED") ==> Normalize(value, operationType) == Completed
    ensures Spells(value, "SUCCESS") ==> Normalize(value, operationType) == Completed
    ensures Spells(value, "FAILED") ==> Normalize(value, operationType) == Failed
    ensures Spells(value, "EXPIRED") ==> Normalize(value, operationType) == Expired
    ensures Spells(value, "BLOCKED") ==> Normalize(value, operationType) == Blocked
    ensures Spells(value, "SCHEDULED") ==> Normalize(value, operationType) == Scheduled
    ensures Spells(value, "REVERSED") ==> Normalize(value, operationType) == Reversed
    ensures !KnownWord(value) ==> Normalize(value, operationType) == Unknown
  {
    hide Spells, Upper, TrimEnd, TrimStart;
    SpellsIff(value, "AWAITING_DEPOSIT");
    SpellsIff(value, "AWAITING_PAYMENT");
    SpellsIff(value, "PROCESSING");
    SpellsIff(value, "COMPLETED");
    SpellsIff(value, "SUCCESS");
    SpellsIff(value, "FAILED");
    SpellsIff(value, "EXPIRED");
    SpellsIff(value, "BLOCKED");
    SpellsIff(value, "SCHEDULED");
    SpellsIff(value, "REVERSED");
  }

  // The graph, told from where its edges lead.

  /** From which other statuses each status can be reached in one step. */
  function Before(to: Status): set<Status> {
    match to
    case Created => {}
    case Quoted => {Created}
    case Initiating => {Created, Quoted}
    case AwaitingFiat => {Initiating, Unknown}
    case AwaitingChain => {Initiating, Unknown}
    case ChainSubmitted => {AwaitingChain, Unknown}
    case Processing => {Initiating, AwaitingFiat, AwaitingChain, ChainSubmitted, Blocked, Scheduled, Unknown}
    case Completed => {Initiating, AwaitingFiat, AwaitingChain, ChainSubmitted, Processing, Blocked, Scheduled, Unknown}
    case Failed =>
      {Created, Quoted, Initiating, AwaitingFiat, AwaitingChain, ChainSubmitted, Processing, Blocked, Scheduled, Unknown}
    case Expired => {Created, Quoted, Initiating, AwaitingFiat, AwaitingChain, Unknown}
    case Blocked => {Initiating, AwaitingFiat, AwaitingChain, ChainSubmitted, Processing, Scheduled, Unknown}
    case Scheduled => {Initiating, AwaitingFiat, AwaitingChain, ChainSubmitted, Processing, Blocked, Unknown}
    case Reversed => {Completed, Processing, Blocked, Scheduled, Unknown}
    case Unknown =>
      {Created, Quoted, Initiating, AwaitingFiat, AwaitingChain, ChainSubmitted, Processing, Blocked, Scheduled}
    case ManualReview =>
      {Created, Quoted, Initiating, AwaitingFiat, AwaitingChain, ChainSubmitted, Processing, Blocked, Scheduled, Unknown}
  }

  lemma EdgesInto(from: Status, to: Status)
    ensures CanTransition(from, to) <==> from == to || from in Before(to)
  {
  }

  // What a word does to a payment.

  predicate Finished(status: Status) {
    status in {Completed, Failed, Expired, Reversed}
  }

  /**
   * The payment has taken the status it was given if there is an edge to it, and kept its own if not; its first
   * completion, and only that, is dated; a change, and only that, adds one line to the log. No other payment changes.
   */
  ghost predicate Takes(s: Store, r: Store, id: Id, next: Status, source: Source, now: int)
    requires id in s.operations
  {
    && id in r.operations && r.operations == s.operations[id := r.operations[id]]
    && r.byKey == s.byKey && r.quotes == s.quotes && r.chain == s.chain
    && var row, after := s.operations[id], r.operations[id];
       && after.status == (if CanTransition(row.status, next) then next else row.status)
       && after.completedAt == (if next == Completed && CanTransition(row.status, next) && row.completedAt.None?
                                then Some(now) else row.completedAt)
       && r.log == s.log + (if after.status == row.status then [] else [Transition(id, Some(row.status), next, source)])
       && after.user == row.user && after.operationType == row.operationType && after.key == row.key
       && after.quote == row.quote && after.intent == row.intent && after.record == row.record
       && after.chainTxHash == row.chainTxHash
  }

  /** A status read from the provider: the poll count starts again, and the next poll is in twenty seconds, if any. */
  lemma {:induction false} StatusReadMeans(s: Store, id: Id, value: string, expiresAt: Option<int>, now: int)
    requires id in s.operations
    ensures var row := s.operations[id]; var next := Normalize(value, row.operationType);
            var (r, reply) := ApplyProviderStatus(s, id, value, expiresAt, now);
            && reply == Ok && Takes(s, r, id, next, FromReconciliation, now) && r.inbox == s.inbox
            && r.byReference == s.byReference
            && (!CanTransition(row.status, next) ==> r == s)
            && (CanTransition(row.status, next) ==>
                  var after := r.operations[id];
                  && after.reconcileAttempts == 0 && after.reconcileLock == None
                  && after.nextReconcile == (if Finished(next) then None else Some(now + 20))
                  && after.expiresAt == (if expiresAt.Some? then expiresAt else row.expiresAt))
  {
    hide Normalize, AllowedNext;
    assert s.operations[id := s.operations[id]] == s.operations;
    assert s.log + [] == s.log;
  }

  /** A webhook that found its payment: it is processed whatever it said. */
  lemma {:induction false} WebhookMeans(s: Store, i: nat, maxAttempts: nat, now: int)
    requires i < |s.inbox| && s.inbox[i].operation in s.operations
    ensures var hook := s.inbox[i]; var row := s.operations[hook.operation];
            var next := Normalize(hook.value, row.operationType); var r := ProcessWebhook(s, i, maxAttempts, now);
            && (row.status != Completed || row.completedAt.Some? ==> Takes(s, r, hook.operation, next, FromWebhook, now))
            && r.operations[hook.operation].status == (if CanTransition(row.status, next) then next else row.status)
            && r.byReference == s.byReference && hook.operation in r.operations
            && r.inbox == s.inbox[i := hook.(state := Processed, attempts := hook.attempts + 1, lock := None)]
            && (r.operations[hook.operation].status == row.status ==> r.operations == s.operations)
            && (r.operations[hook.operation].status != row.status ==>
                  && r.operations[hook.operation].reconcileAttempts == 0
                  && r.operations[hook.operation].nextReconcile == if Finished(next) then None else Some(now + 20))
  {
    hide Normalize, AllowedNext, RetryDelay;
    var id := s.inbox[i].operation;
    assert s.operations[id := s.operations[id]] == s.operations;
    assert s.log + [] == s.log;
    if s.operations[id].status == Completed {
      AlreadyComplete(s.operations[id].status);
    }
  }

  lemma AlreadyComplete(status: Status)
    requires status == Completed
    ensures forall next :: CanTransition(status, next) ==> next == Completed || next == Reversed
  {
  }

  /** A webhook without a payment waits, doubling its delay, and is handed to review with its last attempt. */
  lemma {:induction false} OrphanMeans(s: Store, i: nat, maxAttempts: nat, now: int)
    requires i < |s.inbox| && s.inbox[i].operation !in s.operations
    ensures var hook, attempts := s.inbox[i], s.inbox[i].attempts + 1;
            ProcessWebhook(s, i, maxAttempts, now) == s.(inbox := s.inbox[i :=
              if attempts >= maxAttempts
              then hook.(state := InReview, nextAttempt := None, attempts := attempts, lock := None)
              else hook.(nextAttempt := Some(now + RetryDelay(attempts)), attempts := attempts, lock := None)])
  {
    hide RetryDelay;
  }

  /** Waiting to be processed: its time has come, or it has none, and nobody holds it. */
  ghost predicate Waits(hook: Webhook, now: int) {
    && hook.state == Pending && (forall at :: hook.nextAttempt == Some(at) ==> at <= now)
    && (forall until :: hook.lock == Some(until) ==> until < now)
  }

  /** A batch is the first waiting webhooks in order of arrival: as many as the limit allows, or all there are. */
  lemma {:induction false} BatchMeans(inbox: seq<Webhook>, limit: nat, now: int)
    ensures var r := DueWebhooks(inbox, limit, now);
            && |r| <= limit
            && (forall k :: 0 <= k < |r| ==> Waits(inbox[r[k]], now))
            && (forall j, k :: 0 <= j < k < |r| ==> r[j] < r[k])
            && (forall i :: 0 <= i < |inbox| && Waits(inbox[i], now) && i !in r ==>
                  |r| == limit && forall k :: 0 <= k < |r| ==> r[k] < i)
  {
    if inbox != [] {
      var init, last := inbox[..|inbox| - 1], inbox[|inbox| - 1];
      BatchMeans(init, limit, now);
      var earlier, r := DueWebhooks(init, limit, now), DueWebhooks(inbox, limit, now);
      assert forall i :: 0 <= i < |init| ==> init[i] == inbox[i];
      assert Waits(last, now) <==> WebhookDue(last, now);
      assert r != earlier ==> r == earlier + [|inbox| - 1];
      assert forall i :: i in earlier ==> i in r;
    }
  }

  /** The delay is ten seconds after the first attempt and doubles with each further one, up to half an hour. */
  lemma DelaysMean(attempt: nat)
    ensures RetryDelay(0) == RetryDelay(1) == 10
    ensures attempt >= 1 ==>
              RetryDelay(attempt + 1) == if 2 * RetryDelay(attempt) < 1800 then 2 * RetryDelay(attempt) else 1800
  {
  }

  /** A poll: a word, if there was one, or else the status the payment has; review instead of either at the last attempt. */
  lemma {:induction false} PollMeans(s: Store, id: Id, value: Option<string>, attempt: nat, maxAttempts: nat,
                                     retryAt: int, expiresAt: Option<int>, now: int)
    requires id in s.operations
    ensures var row := s.operations[id];
            var answer := if value.Some? && value.value != "" then Normalize(value.value, row.operationType) else row.status;
            var next := if attempt >= maxAttempts && !Finished(answer) then ManualReview else answer;
            var r := RecordReconciliation(s, id, value, attempt, maxAttempts, retryAt, expiresAt, now);
            && (row.status != Completed || row.completedAt.Some? ==> Takes(s, r, id, next, FromReconciliation, now))
            && r == s.(operations := r.operations, log := r.log) && id in r.operations
            && var after := r.operations[id];
               && after.status == (if CanTransition(row.status, next) then next else row.status)
               && after.reconcileAttempts == attempt && after.reconcileLock == None
               && after.nextReconcile == (if Finished(after.status) then None else Some(retryAt))
               && after.expiresAt == (if expiresAt.Some? then expiresAt else row.expiresAt)
  {
    hide Normalize, AllowedNext;
    assert s.log + [] == s.log;
    AlreadyComplete(Completed);
  }

  /** The provider's answer to an initiation: an edge has to lead to the status, and the reference must be its own. */
  lemma {:induction false} AcceptanceMeans(s: Store, id: Id, reference: Id, value: string, operationType: OperationType,
                                           expiresAt: Option<int>, now: int)
    requires id in s.operations
    ensures var row := s.operations[id]; var next := Normalize(value, operationType);
            var (r, reply) := CompleteInitiation(s, id, reference, value, operationType, expiresAt, now);
            var taken := reference in s.byReference && s.byReference[reference] != id;
            && (reply == Ok <==>
                  && CanTransition(row.status, next)
                  && (row.reference == Some(reference) || (row.reference == Some(id) && !taken)))
            && (reply != Ok ==> r == s)
            && (reply == Ok ==>
                  && Takes(s, r, id, next, Local, now) && r.inbox == s.inbox
                  && r.operations[id].reference == Some(reference)
                  && r.operations[id].expiresAt == expiresAt && r.operations[id].reconcileAttempts == 0
                  && r.operations[id].nextReconcile == if Finished(next) then None else Some(now + 20))
  {
    hide Normalize, AllowedNext;
    assert s.log + [] == s.log;
  }
}
