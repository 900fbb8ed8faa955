/** Payment statuses, the transitions allowed between them, and how the provider's words map onto them. */
module PaymentStatuses {
  import opened Strings

  datatype Status =
    | Created | Quoted | Initiating | AwaitingFiat | AwaitingChain | ChainSubmitted | Processing | Completed
    | Failed | Expired | Blocked | Scheduled | Reversed | Unknown | ManualReview

  datatype OperationType = Onramp | Offramp

  function AllowedNext(status: Status): set<Status> {
    match status
    case Created => {Quoted, Initiating, Failed, Expired, Unknown, ManualReview}
    case Quoted => {Initiating, Failed, Expired, Unknown, ManualReview}
    case Initiating =>
      {AwaitingFiat, AwaitingChain, Processing, Completed, Failed, Expired, Blocked, Scheduled, Unknown, ManualReview}
    case AwaitingFiat => {Processing, Completed, Failed, Expired, Blocked, Scheduled, Unknown, ManualReview}
    case AwaitingChain =>
      {ChainSubmitted, Processing, Completed, Failed, Expired, Blocked, Scheduled, Unknown, ManualReview}
    case ChainSubmitted => {Processing, Completed, Failed, Blocked, Scheduled, Unknown, ManualReview}
    case Processing => {Completed, Failed, Blocked, Scheduled, Reversed, Unknown, ManualReview}
    case Completed => {Reversed}
    case Failed => {}
    case Expired => {}
    case Blocked => {Processing, Completed, Failed, Scheduled, Reversed, Unknown, ManualReview}
    case Scheduled => {Processing, Completed, Failed, Blocked, Reversed, Unknown, ManualReview}
    case Reversed => {}
    case Unknown =>
      {AwaitingFiat, AwaitingChain, ChainSubmitted, Processing, Completed, Failed, Expired, Blocked, Scheduled, Reversed,
       ManualReview}
    case ManualReview => {}
  }

  predicate CanTransition(from: Status, to: Status) {
    from == to || to in AllowedNext(from)
  }

  predicate IsTerminal(status: Status) {
    status == Completed || status == Failed || status == Expired || status == Reversed
  }

  // The statuses that count against a user's cap.
  const ACTIVE_STATUSES := {Created, Quoted, Initiating, AwaitingFiat, AwaitingChain, ChainSubmitted, Processing, Blocked,
                            Scheduled, Unknown, ManualReview}

  /**
   * The shape of the graph the rest relies on: the counted statuses are exactly the non-terminal ones, a terminal
   * payment never becomes active again, nothing re-enters `created`, and review can be entered from every live
   * status but never left.
   */
  lemma GraphShape(a: Status, b: Status)
    ensures a in ACTIVE_STATUSES <==> !IsTerminal(a)
    ensures IsTerminal(a) && CanTransition(a, b) ==> IsTerminal(b) && (a == b || (a == Completed && b == Reversed))
    ensures CanTransition(a, Created) ==> a == Created
    ensures CanTransition(a, ManualReview) <==> !IsTerminal(a)
    ensures CanTransition(ManualReview, b) ==> b == ManualReview
    ensures CanTransition(a, ChainSubmitted) ==> a in {AwaitingChain, Unknown, ChainSubmitted}
  {
  }

  // The provider's words.

  function UpperChar(c: char): char {
    if 'a' <= c <= 'z' then (c as int - 32) as char else c
  }

  function Upper(s: string): string {
    if s == [] then [] else [UpperChar(s[0])] + Upper(s[1..])
  }

  /** The provider's own names; any other word is `unknown`. */
  function NamedStatus(word: string): Status {
    if word == "AWAITING_DEPOSIT" then AwaitingChain
    else if word == "AWAITING_PAYMENT" then AwaitingFiat
    else if word == "PROCESSING" then Processing
    else if word == "COMPLETED" || word == "SUCCESS" then Completed
    else if word == "FAILED" then Failed
    else if word == "EXPIRED" then Expired
    else if word == "BLOCKED" then Blocked
    else if word == "SCHEDULED" then Scheduled
    else if word == "REVERSED" then Reversed
    else Unknown
  }

  function Normalize(value: string, operationType: OperationType): Status {
    var word := Upper(TrimEnd(TrimStart(value)));
    if word == "AWAITING_DEPOSIT" && operationType == Onramp then AwaitingFiat else NamedStatus(word)
  }

  /** No answer of the provider puts a payment in a status only this server may give it. */
  lemma ProviderCannotName(value: string, operationType: OperationType)
    ensures Normalize(value, operationType) !in {Created, Quoted, Initiating, ChainSubmitted, ManualReview}
    ensures operationType == Onramp ==> Normalize(value, operationType) != AwaitingChain
  {
  }

  /** Letter case and surrounding space do not matter. */
  lemma {:induction false} SpellingIrrelevant(value: string, before: string, after: string, operationType: OperationType)
    requires forall i :: 0 <= i < |before| ==> IsSpace(before[i])
    requires forall i :: 0 <= i < |after| ==> IsSpace(after[i])
    ensures Normalize(before + Upper(value) + after, operationType) == Normalize(value, operationType)
  {
    assert before + Upper(value) + after == before + (Upper(value) + after);
    LeadingSpace(before, Upper(value) + after);
    TrimmedPadding(Upper(value), after);
    TrimCommutes(value);
    UpperTwice(TrimEnd(TrimStart(value)));
  }

  lemma {:induction false} LeadingSpace(space: string, s: string)
    requires forall i :: 0 <= i < |space| ==> IsSpace(space[i])
    ensures TrimStart(space + s) == TrimStart(s)
  {
    if space == [] {
      assert space + s == s;
    } else {
      assert (space + s)[1..] == space[1..] + s;
      LeadingSpace(space[1..], s);
    }
  }

  lemma {:induction false} TrailingSpace(s: string, space: string)
    requires forall i :: 0 <= i < |space| ==> IsSpace(space[i])
    ensures TrimEnd(s + space) == TrimEnd(s)
  {
    if space == [] {
      assert s + space == s;
    } else {
      assert (s + space)[..|s + space| - 1] == s + space[..|space| - 1];
      TrailingSpace(s, space[..|space| - 1]);
    }
  }

  lemma {:induction false} TrimmedPadding(s: string, space: string)
    requires forall i :: 0 <= i < |space| ==> IsSpace(space[i])
    ensures TrimEnd(TrimStart(s + space)) == TrimEnd(TrimStart(s))
  {
    if s == [] {
      assert s + space == space;
      LeadingSpace(space, []);
      assert space + [] == space;
    } else if IsSpace(s[0]) {
      assert (s + space)[1..] == s[1..] + space;
      TrimmedPadding(s[1..], space);
    } else {
      TrailingSpace(s, space);
    }
  }

  lemma UpperKeepsSpace(c: char)
    ensures IsSpace(UpperChar(c)) <==> IsSpace(c)
    ensures UpperChar(UpperChar(c)) == UpperChar(c)
  {
  }

  lemma {:induction false} UpperTwice(s: string)
    ensures Upper(Upper(s)) == Upper(s)
  {
    if s != [] {
      UpperKeepsSpace(s[0]);
      UpperTwice(s[1..]);
    }
  }

  lemma {:induction false} UpperAppend(s: string, c: char)
    ensures Upper(s + [c]) == Upper(s) + [UpperChar(c)]
  {
    if s == [] {
      assert s + [c] == [c];
    } else {
      assert (s + [c])[1..] == s[1..] + [c];
      UpperAppend(s[1..], c);
    }
  }

  lemma {:induction false} TrimEndUpper(s: string)
    ensures TrimEnd(Upper(s)) == Upper(TrimEnd(s))
  {
    if s != [] {
      var init, last := s[..|s| - 1], s[|s| - 1];
      assert s == init + [last];
      UpperAppend(init, last);
      UpperKeepsSpace(last);
      assert Upper(s)[..|Upper(s)| - 1] == Upper(init);
      TrimEndUpper(init);
    }
  }

  lemma {:induction false} TrimStartUpper(s: string)
    ensures TrimStart(Upper(s)) == Upper(TrimStart(s))
  {
    if s != [] {
      UpperKeepsSpace(s[0]);
      TrimStartUpper(s[1..]);
    }
  }

  lemma {:induction false} TrimCommutes(s: string)
    ensures TrimEnd(TrimStart(Upper(s))) == Upper(TrimEnd(TrimStart(s)))
  {
    TrimStartUpper(s);
    TrimEndUpper(TrimStart(s));
  }
}
