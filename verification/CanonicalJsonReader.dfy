/**
 * A reader for JSON texts, written from the grammar of RFC 8259 with its code points spelled out, and the proof that it
 * reads every canonical text back to the value it was printed from.
 *
 * The reader is strict. It takes no white space, and it takes strings only as ECMA-262 section 25.5.2.3 quotes them:
 * every escape is the shortest there is, its hexadecimal digits are small, and surrogates stand in pairs or escaped.
 */
module CanonicalJsonReader {
  import opened Prelude
  import opened Strings
  import opened Decimals
  import opened CanonicalJson
  import opened CanonicalJsonProofs

  /** What was read and what is left; None when the text does not begin with what was to be read. */
  type Reading<T> = Option<(T, Text)>

  // Strings.

  function HexValue(u: Unit): Option<nat> {
    if 0x30 <= u <= 0x39 then Some(u - 0x30) else if 0x61 <= u <= 0x66 then Some(u - 0x61 + 10) else None
  }

  /** The code unit of four hexadecimal digits. */
  function ReadHex(s: Text): Option<nat>
    requires |s| >= 4
  {
    match (HexValue(s[0]), HexValue(s[1]), HexValue(s[2]), HexValue(s[3]))
    case (Some(a), Some(b), Some(c), Some(d)) => Some(((a * 16 + b) * 16 + c) * 16 + d)
    case _ => None
  }

  /** Code units that have to be written as four hexadecimal digits: controls without a letter, and surrogates. */
  predicate NeedsHex(n: int) {
    (0 <= n < 0x20 && n !in {0x08, 0x09, 0x0A, 0x0C, 0x0D}) || 0xD800 <= n <= 0xDFFF
  }

  /** After a backslash: one character, or `u` and four digits. */
  function ReadEscape(s: Text): (r: Reading<Unit>)
    ensures r.Some? ==> |r.value.1| < |s|
  {
    if s == [] then None
    else if s[0] == 0x22 then Some((0x22, s[1..]))
    else if s[0] == 0x5C then Some((0x5C, s[1..]))
    else if s[0] == 0x62 then Some((0x08, s[1..]))
    else if s[0] == 0x66 then Some((0x0C, s[1..]))
    else if s[0] == 0x6E then Some((0x0A, s[1..]))
    else if s[0] == 0x72 then Some((0x0D, s[1..]))
    else if s[0] == 0x74 then Some((0x09, s[1..]))
    else if s[0] != 0x75 || |s| < 5 || ReadHex(s[1..]).None? || !NeedsHex(ReadHex(s[1..]).value) then None
    else Some((ReadHex(s[1..]).value, s[5..]))
  }

  /** After the opening quotation mark: the characters up to the closing one. */
  function ReadString(s: Text): (r: Reading<Text>)
    ensures r.Some? ==> |r.value.1| < |s|
    decreases |s|
  {
    if s == [] then None
    else if s[0] == 0x22 then Some(([], s[1..]))
    else if s[0] == 0x5C then
      match ReadEscape(s[1..])
      case None => None
      case Some((u, rest)) => Prepended([u], ReadString(rest))
    else if s[0] < 0x20 || 0xDC00 <= s[0] <= 0xDFFF then None
    else if 0xD800 <= s[0] <= 0xDBFF then
      if |s| > 1 && 0xDC00 <= s[1] <= 0xDFFF then Prepended([s[0], s[1]], ReadString(s[2..])) else None
    else Prepended([s[0]], ReadString(s[1..]))
  }

  function Prepended(units: Text, more: Reading<Text>): (r: Reading<Text>)
    ensures r.Some? <==> more.Some?
    ensures r.Some? ==> r.value.1 == more.value.1
  {
    match more
    case None => None
    case Some((s, rest)) => Some((units + s, rest))
  }

  // Numbers: integers without leading zeros.

  function ReadDigits(s: Text, n: nat): (r: (nat, Text))
    ensures |r.1| <= |s|
    decreases |s|
  {
    if s != [] && 0x30 <= s[0] <= 0x39 then ReadDigits(s[1..], n * 10 + (s[0] - 0x30)) else (n, s)
  }

  function ReadNat(s: Text): (r: Reading<nat>)
    ensures r.Some? ==> |r.value.1| < |s|
  {
    if s == [] || !(0x30 <= s[0] <= 0x39) then None
    else if s[0] == 0x30 then Some((0, s[1..]))
    else Some(ReadDigits(s[1..], s[0] - 0x30))
  }

  function ReadNumber(s: Text): (r: Reading<SafeInt>)
    ensures r.Some? ==> |r.value.1| < |s|
  {
    if s != [] && s[0] == 0x2D then
      match ReadNat(s[1..])
      case None => None
      case Some((n, rest)) => if n == 0 || n > 9007199254740991 then None else Some((-(n as int), rest))
    else
      match ReadNat(s)
      case None => None
      case Some((n, rest)) => if n > 9007199254740991 then None else Some((n, rest))
  }

  // Values.

  /** The text begins with this word. */
  function AfterWord(s: Text, word: Text): Option<Text> {
    if |s| >= |word| && s[..|word|] == word then Some(s[|word|..]) else None
  }

  function ReadValue(s: Text): (r: Reading<Value>)
    ensures r.Some? ==> |r.value.1| < |s|
    decreases |s|, 2
  {
    if s == [] then None
    else if AfterWord(s, [0x6E, 0x75, 0x6C, 0x6C]).Some? then Some((Null, s[4..]))
    else if AfterWord(s, [0x74, 0x72, 0x75, 0x65]).Some? then Some((Bool(true), s[4..]))
    else if AfterWord(s, [0x66, 0x61, 0x6C, 0x73, 0x65]).Some? then Some((Bool(false), s[5..]))
    else if s[0] == 0x22 then
      match ReadString(s[1..])
      case None => None
      case Some((text, rest)) => Some((Str(text), rest))
    else if s[0] == 0x5B then
      if |s| > 1 && s[1] == 0x5D then Some((Arr([]), s[2..]))
      else
        match ReadItems(s[1..])
        case None => None
        case Some((items, rest)) => Some((Arr(items), rest))
    else if s[0] == 0x7B then
      if |s| > 1 && s[1] == 0x7D then Some((Obj([]), s[2..]))
      else
        match ReadMembers(s[1..])
        case None => None
        case Some((members, rest)) => Some((Obj(members), rest))
    else
      match ReadNumber(s)
      case None => None
      case Some((n, rest)) => Some((Int(n), rest))
  }

  /** One or more items with commas between them, and the closing bracket. */
  function ReadItems(s: Text): (r: Reading<seq<Value>>)
    ensures r.Some? ==> |r.value.1| < |s|
    decreases |s|, 3
  {
    match ReadValue(s)
    case None => None
    case Some((item, rest)) =>
      if rest != [] && rest[0] == 0x5D then Some(([item], rest[1..]))
      else if rest == [] || rest[0] != 0x2C then None
      else
        match ReadItems(rest[1..])
        case None => None
        case Some((items, after)) => Some(([item] + items, after))
  }

  /** A key in quotation marks, a colon and a value. */
  function ReadMember(s: Text): (r: Reading<Member<Value>>)
    ensures r.Some? ==> |r.value.1| < |s|
    decreases |s|, 3
  {
    if s == [] || s[0] != 0x22 then None
    else
      match ReadString(s[1..])
      case None => None
      case Some((key, rest)) =>
        if rest == [] || rest[0] != 0x3A then None
        else
          match ReadValue(rest[1..])
          case None => None
          case Some((value, after)) => Some((Member(key, value), after))
  }

  /** One or more members with commas between them, and the closing brace. */
  function ReadMembers(s: Text): (r: Reading<seq<Member<Value>>>)
    ensures r.Some? ==> |r.value.1| < |s|
    decreases |s|, 4
  {
    match ReadMember(s)
    case None => None
    case Some((member, rest)) =>
      if rest != [] && rest[0] == 0x7D then Some(([member], rest[1..]))
      else if rest == [] || rest[0] != 0x2C then None
      else
        match ReadMembers(rest[1..])
        case None => None
        case Some((members, after)) => Some(([member] + members, after))
  }

  // What is promised of the text.

  /** One key comes before another: it is a proper beginning of it, or smaller where they first differ. */
  ghost predicate Precedes(a: Text, b: Text) {
    exists i :: 0 <= i <= |a| && i < |b| && a[..i] == b[..i] && (i < |a| ==> a[i] < b[i])
  }

  /** In every object, at every depth, each key comes before the next. */
  ghost predicate KeysInOrder(v: Value) {
    match v
    case Arr(items) => forall i :: 0 <= i < |items| ==> KeysInOrder(items[i])
    case Obj(members) =>
      && (forall i, j :: 0 <= i < j < |members| ==> Precedes(members[i].key, members[j].key))
      && forall i :: 0 <= i < |members| ==> KeysInOrder(members[i].value)
    case _ => true
  }

  // Strings are read back.

  lemma HexRead(d: nat)
    requires d < 16
    ensures HexValue(Hex(d)) == Some(d)
  {
  }

  lemma HexDigitsRead(u: Unit, rest: Text)
    ensures ReadHex([Hex(u / 4096), Hex(u / 256 % 16), Hex(u / 16 % 16), Hex(u % 16)] + rest) == Some(u as nat)
  {
    HexRead(u / 4096);
    HexRead(u / 256 % 16);
    HexRead(u / 16 % 16);
    HexRead(u % 16);
    assert u / 256 / 16 == u / 4096 && u / 16 / 16 == u / 256;
  }

  lemma {:induction false} EscapeRead(u: Unit, rest: Text)
    requires u < 0x20 || 0xD800 <= u <= 0xDFFF || u == 0x22 || u == 0x5C
    ensures var s := Escaped(u) + rest; s != [] && s[0] == 0x5C && ReadEscape(s[1..]) == Some((u, rest))
  {
    var s := Escaped(u) + rest;
    if |Escaped(u)| == 2 {
      assert s[1..] == [Escaped(u)[1]] + rest;
    } else {
      var digits := [Hex(u / 4096), Hex(u / 256 % 16), Hex(u / 16 % 16), Hex(u % 16)];
      assert s[1..] == [0x75] + (digits + rest);
      assert s[1..][1..] == digits + rest;
      HexDigitsRead(u, rest);
    }
  }

  lemma {:induction false} SingleRead(u: Unit, rest: Text)
    ensures ReadString(Escaped(u) + rest) == Prepended([u], ReadString(rest))
  {
    if u < 0x20 || 0xD800 <= u <= 0xDFFF || u == 0x22 || u == 0x5C {
      EscapeRead(u, rest);
    } else {
      assert ([u] + rest)[1..] == rest;
    }
  }

  lemma {:induction false} PairRead(a: Unit, b: Unit, rest: Text)
    requires High(a) && Low(b)
    ensures ReadString([a, b] + rest) == Prepended([a, b], ReadString(rest))
  {
    assert ([a, b] + rest)[2..] == rest;
  }

  /** A quoted string is read up to its closing mark. */
  lemma {:induction false} BodyRead(s: Text, rest: Text)
    ensures ReadString(Body(s) + [QUOTE] + rest) == Some((s, rest))
    decreases |s|
  {
    hide Body, Escaped;
    if s == [] {
      BodyEmpty(rest);
      assert ([QUOTE] + rest)[1..] == rest;
    } else if Paired(s) {
      BodyPair(s, rest);
      BodyRead(s[2..], rest);
      PairRead(s[0], s[1], Body(s[2..]) + [QUOTE] + rest);
      assert s[..2] == [s[0], s[1]] && s == [s[0], s[1]] + s[2..];
    } else {
      BodySingle(s, rest);
      BodyRead(s[1..], rest);
      SingleRead(s[0], Body(s[1..]) + [QUOTE] + rest);
      assert s == [s[0]] + s[1..];
    }
  }

  // Numbers are read back.

  lemma {:induction false} DigitsRead(digits: string, n: nat, rest: Text)
    requires AllDigits(digits) && ParseNat(digits) == Some(n)
    ensures ReadDigits(Code(digits) + rest, 0) == ReadDigits(rest, n)
  {
    if digits == "" {
      assert Code(digits) + rest == rest;
    } else {
      var init, last := digits[..|digits| - 1], digits[|digits| - 1];
      assert digits == init + [last];
      CodeAppend(init, last);
      var more := [last as int] + rest;
      assert Code(digits) + rest == Code(init) + more;
      assert more[1..] == rest;
      DigitsRead(init, ParseNat(init).value, more);
    }
  }

  lemma {:induction false} CodeAppend(s: string, c: char)
    requires IsDigit(c)
    ensures Code(s + [c]) == Code(s) + [c as int]
  {
    if s == "" {
      assert s + [c] == [c] && [c][1..] == "";
    } else {
      assert (s + [c])[1..] == s[1..] + [c];
      CodeAppend(s[1..], c);
    }
  }

  /** Digits without a leading zero, followed by something else, are read as their number. */
  lemma {:induction false} NatRead(n: nat, rest: Text)
    requires Stops(rest)
    ensures ReadNat(Code(Digits(n)) + rest) == Some((n, rest))
  {
    hide Digits, Code, ParseNat;
    DigitsParse(n);
    CodeAt(Digits(n));
    var s := Code(Digits(n)) + rest;
    if n < 10 {
      OneDigit(n);
      assert s[1..] == rest;
    } else {
      DigitsRead(Digits(n), n, rest);
      NoLeadingZero(n);
      assert s[0] == Code(Digits(n))[0];
      assert ReadDigits(s, 0) == ReadDigits(s[1..], s[0] - 0x30);
    }
    assert ReadDigits(rest, n) == (n, rest);
  }

  lemma {:induction false} OneDigit(n: nat)
    requires n < 10
    ensures Code(Digits(n)) == [0x30 + n]
  {
    assert [CharOf(n)][1..] == "";
  }

  lemma {:induction false} NoLeadingZero(n: nat)
    requires n > 0
    ensures Digits(n) != "" && Digits(n)[0] != '0'
  {
    if n >= 10 {
      NoLeadingZero(n / 10);
    }
  }

  lemma NumberRead(n: SafeInt, rest: Text)
    requires Stops(rest)
    ensures ReadNumber(PrintInt(n) + rest) == Some((n, rest))
  {
    hide PrintInt, Code, Digits, Stops;
    IntText(n);
    if n < 0 {
      NatRead(-n, rest);
      assert (PrintInt(n) + rest)[1..] == Code(Digits(-n)) + rest;
    } else {
      NatRead(n, rest);
      assert (PrintInt(n) + rest)[0] == PrintInt(n)[0];
    }
  }

  // Values are read back.

  lemma {:induction false} CodeWord(s: string)
    requires forall i :: 0 <= i < |s| ==> s[i] as int < 0x10000
    ensures |Code(s)| == |s| && forall i :: 0 <= i < |s| ==> Code(s)[i] == s[i] as int
  {
    if s != [] {
      CodeWord(s[1..]);
    }
  }

  lemma {:induction false} NullRead(rest: Text)
    ensures ReadValue(Code("null") + rest) == Some((Null, rest))
  {
    hide Code;
    CodeWord("null");
    assert Code("null") == [0x6E, 0x75, 0x6C, 0x6C];
    assert (Code("null") + rest)[..4] == Code("null") && (Code("null") + rest)[4..] == rest;
  }

  lemma {:induction false} BoolRead(b: bool, rest: Text)
    ensures ReadValue(Code(if b then "true" else "false") + rest) == Some((Bool(b), rest))
  {
    hide Code;
    if b {
      CodeWord("true");
      assert Code("true") == [0x74, 0x72, 0x75, 0x65];
      assert (Code("true") + rest)[..4] == Code("true") && (Code("true") + rest)[4..] == rest;
    } else {
      CodeWord("false");
      assert Code("false") == [0x66, 0x61, 0x6C, 0x73, 0x65];
      assert (Code("false") + rest)[..4][0] == 0x66;
      assert (Code("false") + rest)[..5] == Code("false") && (Code("false") + rest)[5..] == rest;
    }
  }

  lemma {:induction false} IntRead(n: SafeInt, rest: Text)
    requires Stops(rest)
    ensures ReadValue(PrintInt(n) + rest) == Some((Int(n), rest))
  {
    hide PrintInt, ReadNumber;
    IntText(n);
    NumberRead(n, rest);
    assert (PrintInt(n) + rest)[0] == PrintInt(n)[0];
  }

  lemma {:induction false} StrRead(x: Text, rest: Text)
    ensures ReadValue(Quoted(x) + rest) == Some((Str(x), rest))
  {
    hide Body, ReadString;
    QuotedInside(x, rest);
    BodyRead(x, rest);
    assert (Quoted(x) + rest)[0] == 0x22;
  }

  lemma {:induction false} ValueRead(v: Value, rest: Text)
    requires Defined(v) && Stops(rest)
    ensures ReadValue(Plain(v) + rest) == Some((v, rest))
    decreases v, 0
  {
    hide Plain, Join, Quoted, Properties, PrintInt, ReadValue, Code;
    PlainWords(v);
    match v
    case Null => NullRead(rest);
    case Bool(b) => BoolRead(b, rest);
    case Int(n) => IntRead(n, rest);
    case Str(x) => StrRead(x, rest);
    case Arr(items) =>
      ArrayRead(items, rest);
      assert Plain(v) + rest == [OPEN_ARRAY] + (Join(PlainEach(items)) + [CLOSE_ARRAY] + rest);
    case Obj(members) =>
      ObjectRead(members, rest);
      assert Plain(v) + rest == [OPEN_OBJECT] + (Join(Properties(PlainValues(members))) + [CLOSE_OBJECT] + rest);
    case Undefined =>
  }

  lemma {:induction false} PlainWords(v: Value)
    ensures v.Null? ==> Plain(v) == Code("null")
    ensures v.Bool? ==> Plain(v) == Code(if v.b then "true" else "false")
    ensures v.Int? ==> Plain(v) == PrintInt(v.n)
    ensures v.Str? ==> Plain(v) == Quoted(v.s)
    ensures v.Arr? ==> Plain(v) == [OPEN_ARRAY] + Join(PlainEach(v.items)) + [CLOSE_ARRAY]
    ensures v.Obj? ==> Plain(v) == [OPEN_OBJECT] + Join(Properties(PlainValues(v.members))) + [CLOSE_OBJECT]
  {
    hide Code, PrintInt, Quoted, Join, Properties;
  }

  lemma {:induction false} QuotedInside(s: Text, rest: Text)
    ensures (Quoted(s) + rest)[1..] == Body(s) + [QUOTE] + rest
  {
  }

  lemma {:induction false} ArrayRead(items: seq<Value>, rest: Text)
    requires forall i :: 0 <= i < |items| ==> Defined(items[i])
    ensures var s := [OPEN_ARRAY] + (Join(PlainEach(items)) + [CLOSE_ARRAY] + rest);
            ReadValue(s) == Some((Arr(items), rest))
    decreases items, 3
  {
    hide Plain, Join, ReadNumber, ReadString, ReadItems;
    var inside := Join(PlainEach(items)) + [CLOSE_ARRAY] + rest;
    var s := [OPEN_ARRAY] + inside;
    assert s[1..] == inside;
    if items == [] {
      JoinNothing();
      assert inside == [CLOSE_ARRAY] + rest;
      assert s[2..] == rest;
    } else {
      ItemsRead(items, rest);
      JoinSplits(PlainEach(items), CLOSE_ARRAY, rest);
      PlainLeads(items[0]);
      assert inside[0] == Plain(items[0])[0];
    }
  }

  lemma {:induction false} ItemsRead(items: seq<Value>, rest: Text)
    requires items != [] && forall i :: 0 <= i < |items| ==> Defined(items[i])
    ensures ReadItems(Join(PlainEach(items)) + [CLOSE_ARRAY] + rest) == Some((items, rest))
    decreases items, 1
  {
    hide Plain, Join, ReadValue;
    JoinSplits(PlainEach(items), CLOSE_ARRAY, rest);
    var following := Following(PlainEach(items), CLOSE_ARRAY, rest);
    ValueRead(items[0], following);
    if |items| == 1 {
      assert following[1..] == rest && items == [items[0]];
    } else {
      assert PlainEach(items)[1..] == PlainEach(items[1..]);
      assert following[1..] == Join(PlainEach(items[1..])) + [CLOSE_ARRAY] + rest;
      ItemsRead(items[1..], rest);
      assert items == [items[0]] + items[1..];
    }
  }

  lemma {:induction false} ObjectRead(members: seq<Member<Value>>, rest: Text)
    requires forall i :: 0 <= i < |members| ==> Defined(members[i].value)
    ensures var s := [OPEN_OBJECT] + (Join(Properties(PlainValues(members))) + [CLOSE_OBJECT] + rest);
            ReadValue(s) == Some((Obj(members), rest))
    decreases members, 3
  {
    hide Plain, Join, Properties, Quoted, ReadNumber, ReadString, ReadMembers;
    var inside := Join(Properties(PlainValues(members))) + [CLOSE_OBJECT] + rest;
    var s := [OPEN_OBJECT] + inside;
    assert s[1..] == inside;
    PropertiesStart(members, rest);
    if members == [] {
      JoinNothing();
      assert s[2..] == rest;
    } else {
      MembersRead(members, rest);
      QuotedStarts(members[0].key);
      assert inside[0] == Quoted(members[0].key)[0];
    }
  }

  lemma {:induction false} MembersRead(members: seq<Member<Value>>, rest: Text)
    requires members != [] && forall i :: 0 <= i < |members| ==> Defined(members[i].value)
    ensures ReadMembers(Join(Properties(PlainValues(members))) + [CLOSE_OBJECT] + rest) == Some((members, rest))
    decreases members, 1
  {
    hide Plain, Join, Quoted, Properties, ReadMember;
    PropertiesStart(members, rest);
    var parts := Properties(PlainValues(members));
    var following := Following(parts, CLOSE_OBJECT, rest);
    MemberRead(members[0], following);
    if |members| == 1 {
      assert following[1..] == rest && members == [members[0]];
    } else {
      assert following[1..] == Join(Properties(PlainValues(members[1..]))) + [CLOSE_OBJECT] + rest;
      MembersRead(members[1..], rest);
      assert members == [members[0]] + members[1..];
    }
  }

  lemma {:induction false} MemberRead(m: Member<Value>, rest: Text)
    requires Defined(m.value) && Stops(rest)
    ensures ReadMember(Quoted(m.key) + ([COLON] + (Plain(m.value) + rest))) == Some((m, rest))
    decreases m, 1
  {
    hide Plain, Body, ReadString, ReadValue;
    var after := [COLON] + (Plain(m.value) + rest);
    QuotedInside(m.key, after);
    BodyRead(m.key, after);
    assert after[1..] == Plain(m.value) + rest;
    ValueRead(m.value, rest);
  }

  // The texts of all values.

  lemma {:induction false} BeforePrecedes(a: Text, b: Text)
    requires Before(a, b)
    ensures Precedes(a, b)
  {
    if a == [] || a[0] < b[0] {
      assert a[..0] == b[..0];
    } else {
      BeforePrecedes(a[1..], b[1..]);
      var i :| 0 <= i <= |a[1..]| && i < |b[1..]| && a[1..][..i] == b[1..][..i] && (i < |a[1..]| ==> a[1..][i] < b[1..][i]);
      assert a[..i + 1] == [a[0]] + a[1..][..i] && b[..i + 1] == [b[0]] + b[1..][..i];
    }
  }

  lemma {:induction false} NormInOrder(v: Value)
    requires Proper(v)
    ensures KeysInOrder(Norm(v))
  {
    hide Precedes, Before;
    match v
    case Arr(items) =>
      forall i | 0 <= i < |items| ensures KeysInOrder(NormEach(items)[i]) {
        NormEachAt(items, i);
        NormInOrder(items[i]);
      }
    case Obj(members) =>
      var sorted := Sort(NormValues(members));
      NormDistinct(members);
      SortAscends(NormValues(members));
      forall i, j | 0 <= i < j < |sorted| ensures Precedes(sorted[i].key, sorted[j].key) {
        BeforePrecedes(sorted[i].key, sorted[j].key);
      }
      forall k | 0 <= k < |sorted| ensures KeysInOrder(sorted[k].value) {
        SortHas(NormValues(members), sorted[k]);
        var i :| 0 <= i < |members| && NormValues(members)[i] == sorted[k];
        NormAt(members, i);
        NormInOrder(members[i].value);
      }
    case _ =>
  }

  /** A value agrees with its normal form. */
  lemma {:induction false} NormAgrees(v: Value)
    ensures Agree(v, Norm(v))
  {
    match v
    case Arr(items) =>
      forall i | 0 <= i < |items| ensures Agree(items[i], NormEach(items)[i]) {
        NormEachAt(items, i);
        NormAgrees(items[i]);
      }
    case Obj(members) =>
      var sorted := Sort(NormValues(members));
      hide Sort;
      forall j | 0 <= j < |sorted| ensures HasKey(members, sorted[j].key) {
        SortHas(NormValues(members), sorted[j]);
        var i :| 0 <= i < |members| && NormValues(members)[i] == sorted[j];
        NormAt(members, i);
      }
      forall i | 0 <= i < |members|
        ensures exists j :: 0 <= j < |sorted| && members[i].key == sorted[j].key && Agree(members[i].value, sorted[j].value)
      {
        NormAt(members, i);
        SortHas(NormValues(members), NormValues(members)[i]);
        var j :| 0 <= j < |sorted| && sorted[j] == NormValues(members)[i];
        NormAgrees(members[i].value);
      }
    case _ =>
  }

  /**
   * The canonical text of a value is a JSON text without white space, in which the keys of every object stand in
   * order, and it reads back to the value, undefined read as null.
   */
  lemma {:induction false} TextReadsBack(v: Value)
    requires Proper(v)
    ensures var reading := ReadValue(Print(v));
            && reading.Some? && reading.value.1 == []
            && Agree(v, reading.value.0) && KeysInOrder(reading.value.0)
  {
    hide Print, Plain, Norm, ReadValue, Agree, KeysInOrder, Defined, Proper;
    PrintIsPlain(v);
    NormDefined(v);
    assert Plain(Norm(v)) + [] == Plain(Norm(v));
    ValueRead(Norm(v), []);
    NormInOrder(v);
    NormAgrees(v);
  }
}
