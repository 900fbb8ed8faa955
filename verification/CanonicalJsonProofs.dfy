/** Why canonical JSON texts are equal exactly for values that agree. */
module CanonicalJsonProofs {
  import opened Prelude
  import opened Strings
  import opened Decimals
  import opened CanonicalJson

  // Printing without sorting, for values already in normal form.

  function Plain(v: Value): Text {
    match v
    case Undefined => Code("null")
    case Null => Code("null")
    case Bool(b) => if b then Code("true") else Code("false")
    case Int(n) => PrintInt(n)
    case Str(s) => Quoted(s)
    case Arr(items) => [OPEN_ARRAY] + Join(PlainEach(items)) + [CLOSE_ARRAY]
    case Obj(members) => [OPEN_OBJECT] + Join(Properties(PlainValues(members))) + [CLOSE_OBJECT]
  }

  function PlainEach(items: seq<Value>): (r: seq<Text>)
    ensures |r| == |items|
  {
    if items == [] then [] else [Plain(items[0])] + PlainEach(items[1..])
  }

  function PlainValues(members: seq<Member<Value>>): (r: seq<Member<Text>>)
    ensures |r| == |members|
  {
    if members == [] then [] else [Member(members[0].key, Plain(members[0].value))] + PlainValues(members[1..])
  }

  lemma {:induction false} InsertPlain(m: Member<Value>, sorted: seq<Member<Value>>)
    ensures PlainValues(Insert(m, sorted)) == Insert(Member(m.key, Plain(m.value)), PlainValues(sorted))
  {
    if sorted == [] || Before(m.key, sorted[0].key) {
      assert ([m] + sorted)[1..] == sorted;
    } else {
      InsertPlain(m, sorted[1..]);
      assert ([sorted[0]] + Insert(m, sorted[1..]))[1..] == Insert(m, sorted[1..]);
    }
  }

  lemma {:induction false} SortPlain(members: seq<Member<Value>>)
    ensures PlainValues(Sort(members)) == Sort(PlainValues(members))
  {
    if members != [] {
      SortPlain(members[1..]);
      InsertPlain(members[0], Sort(members[1..]));
    }
  }

  /** Printing is printing the normal form. */
  lemma {:induction false} PrintIsPlain(v: Value)
    ensures Print(v) == Plain(Norm(v))
    decreases v, 0
  {
    match v
    case Arr(items) => EachIsPlain(items);
    case Obj(members) =>
      ValuesArePlain(members);
      SortPlain(NormValues(members));
    case _ =>
  }

  lemma {:induction false} EachIsPlain(items: seq<Value>)
    ensures PrintEach(items) == PlainEach(NormEach(items))
    decreases items, 1
  {
    if items != [] {
      PrintIsPlain(items[0]);
      EachIsPlain(items[1..]);
    }
  }

  lemma {:induction false} ValuesArePlain(members: seq<Member<Value>>)
    ensures PrintValues(members) == PlainValues(NormValues(members))
    decreases members, 1
  {
    if members != [] {
      PrintIsPlain(members[0].value);
      ValuesArePlain(members[1..]);
    }
  }

  // Plain texts can be told apart, whatever follows them.

  predicate DigitUnit(u: Unit) {
    0x30 <= u <= 0x39
  }

  predicate Stops(rest: Text) {
    rest == [] || !DigitUnit(rest[0])
  }

  lemma {:induction false} CodeAt(s: string)
    requires AllDigits(s)
    ensures |Code(s)| == |s| && forall i :: 0 <= i < |s| ==> Code(s)[i] == s[i] as int && DigitUnit(Code(s)[i])
  {
    if s != [] {
      assert s[0] in s && forall c :: c in s[1..] ==> c in s;
      CodeAt(s[1..]);
    }
  }

  /** Digits followed by something else end where they end. */
  lemma {:induction false} NotLonger(a: string, r: Text, b: string, q: Text)
    requires AllDigits(a) && AllDigits(b) && Code(a) + r == Code(b) + q && Stops(r)
    ensures |b| <= |a|
  {
    CodeAt(a);
    CodeAt(b);
    var t := Code(a) + r;
    assert |t| > |a| ==> t[|a|] == r[0];
    assert forall i :: 0 <= i < |b| ==> t[i] == Code(b)[i];
  }

  lemma {:induction false} NatUnique(m: nat, r: Text, n: nat, q: Text)
    requires Code(Digits(m)) + r == Code(Digits(n)) + q && Stops(r) && Stops(q)
    ensures m == n && r == q
  {
    DigitsParse(m);
    DigitsParse(n);
    var a, b := Digits(m), Digits(n);
    NotLonger(a, r, b, q);
    NotLonger(b, q, a, r);
    CodeAt(a);
    CodeAt(b);
    assert Code(a) == (Code(a) + r)[..|a|] == Code(b);
    assert forall i :: 0 <= i < |a| ==> a[i] as int == Code(a)[i] == Code(b)[i] == b[i] as int;
    assert a == b;
    assert r == (Code(a) + r)[|a|..] == q;
  }

  lemma IntText(n: int)
    ensures PrintInt(n) == if n < 0 then [0x2D] + Code(Digits(-n)) else Code(Digits(n))
    ensures PrintInt(n) != [] && (if n < 0 then PrintInt(n)[0] == 0x2D else DigitUnit(PrintInt(n)[0]))
  {
    if n < 0 {
      assert ("-" + Digits(-n))[1..] == Digits(-n);
    } else {
      DigitsParse(n);
      CodeAt(Digits(n));
    }
  }

  lemma IntUnique(m: int, r: Text, n: int, q: Text)
    requires PrintInt(m) + r == PrintInt(n) + q && Stops(r) && Stops(q)
    ensures m == n && r == q
  {
    hide PrintInt, Code, Digits, Stops;
    IntText(m);
    IntText(n);
    assert (PrintInt(m) + r)[0] == PrintInt(m)[0] && (PrintInt(n) + q)[0] == PrintInt(n)[0];
    if m < 0 {
      assert (PrintInt(m) + r)[1..] == Code(Digits(-m)) + r;
      assert (PrintInt(n) + q)[1..] == Code(Digits(-n)) + q;
      NatUnique(-m, r, -n, q);
    } else {
      NatUnique(m, r, n, q);
    }
  }

  lemma EscapedUnique(a: Unit, x: Text, b: Unit, y: Text)
    requires Escaped(a) + x == Escaped(b) + y
    ensures a == b && x == y
  {
    var s, t := Escaped(a) + x, Escaped(b) + y;
    assert s[0] == Escaped(a)[0] && t[0] == Escaped(b)[0];
    if s[0] == BACKSLASH {
      assert s[1] == Escaped(a)[1] && t[1] == Escaped(b)[1];
      if s[1] == 0x75 {
        assert s[2..6] == Escaped(a)[2..] && t[2..6] == Escaped(b)[2..];
        assert forall i :: 2 <= i < 6 ==> Escaped(a)[i] == s[i] == t[i] == Escaped(b)[i];
        HexUnique(a, b);
      }
    }
    assert x == s[|Escaped(a)|..] && y == t[|Escaped(b)|..];
  }

  lemma HexUnique(a: Unit, b: Unit)
    requires Hex(a / 4096) == Hex(b / 4096) && Hex(a / 256 % 16) == Hex(b / 256 % 16)
    requires Hex(a / 16 % 16) == Hex(b / 16 % 16) && Hex(a % 16) == Hex(b % 16)
    ensures a == b
  {
    forall u: Unit ensures u == u / 4096 * 4096 + u / 256 % 16 * 256 + u / 16 % 16 * 16 + u % 16 {
      assert u / 256 / 16 == u / 4096 && u / 16 / 16 == u / 256;
    }
  }

  predicate Paired(s: Text) {
    |s| > 1 && High(s[0]) && Low(s[1])
  }

  /** The first unit printed for a string tells its end, its first pair, or a single unit apart. */
  lemma {:induction false} BodyStarts(s: Text, r: Text)
    ensures var t := Body(s) + [QUOTE] + r;
            && (s == [] <==> t[0] == QUOTE)
            && (Paired(s) <==> High(t[0]))
  {
    if s != [] && !Paired(s) {
      assert (Body(s) + [QUOTE] + r)[0] == Escaped(s[0])[0];
    }
  }

  lemma {:induction false} BodyPair(s: Text, r: Text)
    requires Paired(s)
    ensures Body(s) + [QUOTE] + r == s[..2] + (Body(s[2..]) + [QUOTE] + r)
  {
  }

  lemma {:induction false} BodySingle(s: Text, r: Text)
    requires s != [] && !Paired(s)
    ensures Body(s) + [QUOTE] + r == Escaped(s[0]) + (Body(s[1..]) + [QUOTE] + r)
  {
  }

  lemma BodyEmpty(r: Text)
    ensures Body([]) + [QUOTE] + r == [QUOTE] + r
  {
  }

  lemma {:induction false} BodyUnique(s: Text, r: Text, t: Text, q: Text)
    requires Body(s) + [QUOTE] + r == Body(t) + [QUOTE] + q
    ensures s == t && r == q
    decreases |s|
  {
    hide Body, Escaped;
    BodyStarts(s, r);
    BodyStarts(t, q);
    var whole := Body(s) + [QUOTE] + r;
    if s == [] {
      BodyEmpty(r);
      BodyEmpty(q);
      assert r == whole[1..] == q;
    } else if Paired(s) {
      BodyPair(s, r);
      BodyPair(t, q);
      assert whole[..2] == s[..2] && whole[..2] == t[..2];
      assert whole[2..] == Body(s[2..]) + [QUOTE] + r && whole[2..] == Body(t[2..]) + [QUOTE] + q;
      BodyUnique(s[2..], r, t[2..], q);
      assert s == s[..2] + s[2..] && t == t[..2] + t[2..];
    } else {
      BodySingle(s, r);
      BodySingle(t, q);
      EscapedUnique(s[0], Body(s[1..]) + [QUOTE] + r, t[0], Body(t[1..]) + [QUOTE] + q);
      BodyUnique(s[1..], r, t[1..], q);
      assert s == [s[0]] + s[1..] && t == [t[0]] + t[1..];
    }
  }

  lemma QuotedUnique(s: Text, r: Text, t: Text, q: Text)
    requires Quoted(s) + r == Quoted(t) + q
    ensures s == t && r == q
  {
    assert (Quoted(s) + r)[1..] == Body(s) + [QUOTE] + r;
    assert (Quoted(t) + q)[1..] == Body(t) + [QUOTE] + q;
    BodyUnique(s, r, t, q);
  }

  ghost predicate Defined(v: Value) {
    match v
    case Undefined => false
    case Arr(items) => forall i :: 0 <= i < |items| ==> Defined(items[i])
    case Obj(members) => forall i :: 0 <= i < |members| ==> Defined(members[i].value)
    case _ => true
  }

  /** The first unit of a value's text gives its kind. */
  function Leads(v: Value): Unit {
    match v
    case Undefined => 0x6E
    case Null => 0x6E
    case Bool(b) => if b then 0x74 else 0x66
    case Int(n) => if n < 0 then 0x2D else 0x30
    case Str(s) => QUOTE
    case Arr(items) => OPEN_ARRAY
    case Obj(members) => OPEN_OBJECT
  }

  lemma {:induction false} PlainLeads(v: Value)
    ensures Plain(v) != [] && (if DigitUnit(Plain(v)[0]) then Leads(v) == 0x30 else Leads(v) == Plain(v)[0])
  {
    if v.Int? {
      IntText(v.n);
    }
  }

  lemma {:induction false} PlainInside(v: Value, r: Text)
    ensures v.Int? ==> Plain(v) == PrintInt(v.n)
    ensures v.Str? ==> Plain(v) == Quoted(v.s)
    ensures v.Arr? ==> Plain(v) != [] && (Plain(v) + r)[1..] == Join(PlainEach(v.items)) + [CLOSE_ARRAY] + r
    ensures v.Obj? ==> Plain(v) != [] && (Plain(v) + r)[1..] == Join(Properties(PlainValues(v.members))) + [CLOSE_OBJECT] + r
  {
    hide Quoted, Join, Properties, PrintInt;
  }

  /** What follows the first item: the closing bracket, or a comma and the other items. */
  function Following(parts: seq<Text>, close: Unit, rest: Text): Text
    requires parts != []
  {
    if |parts| == 1 then [close] + rest else [COMMA] + (Join(parts[1..]) + [close] + rest)
  }

  lemma {:induction false} JoinSplits(parts: seq<Text>, close: Unit, rest: Text)
    requires parts != []
    ensures Join(parts) + [close] + rest == parts[0] + Following(parts, close, rest)
  {
  }

  lemma {:induction false} PlainUnique(v: Value, r: Text, w: Value, q: Text)
    requires Defined(v) && Defined(w) && Plain(v) + r == Plain(w) + q && Stops(r) && Stops(q)
    ensures v == w && r == q
    decreases v, 0
  {
    hide Plain, Join, Quoted, Properties, PrintInt;
    PlainLeads(v);
    PlainLeads(w);
    PlainInside(v, r);
    PlainInside(w, q);
    var s := Plain(v) + r;
    assert s[0] == Plain(v)[0] == Plain(w)[0];
    match v
    case Int(n) => IntUnique(n, r, w.n, q);
    case Str(x) => QuotedUnique(x, r, w.s, q);
    case Arr(items) => ItemsUnique(items, r, w.items, q);
    case Obj(members) => MembersUnique(members, r, w.members, q);
    case Null => assert r == s[|Plain(v)|..] == q;
    case Bool(b) => assert r == s[|Plain(v)|..] == q;
    case Undefined =>
  }

  lemma {:induction false} ItemsUnique(a: seq<Value>, r: Text, b: seq<Value>, q: Text)
    requires (forall i :: 0 <= i < |a| ==> Defined(a[i])) && (forall i :: 0 <= i < |b| ==> Defined(b[i]))
    requires Join(PlainEach(a)) + [CLOSE_ARRAY] + r == Join(PlainEach(b)) + [CLOSE_ARRAY] + q
    ensures a == b && r == q
    decreases a, 1
  {
    hide Plain, Join;
    JoinNothing();
    var s := Join(PlainEach(a)) + [CLOSE_ARRAY] + r;
    if a != [] { JoinSplits(PlainEach(a), CLOSE_ARRAY, r); PlainLeads(a[0]); assert s[0] == Plain(a[0])[0]; }
    if b != [] { JoinSplits(PlainEach(b), CLOSE_ARRAY, q); PlainLeads(b[0]); assert s[0] == Plain(b[0])[0]; }
    if a == [] {
      assert r == s[1..] == q;
    } else {
      var x, y := Following(PlainEach(a), CLOSE_ARRAY, r), Following(PlainEach(b), CLOSE_ARRAY, q);
      PlainUnique(a[0], x, b[0], y);
      assert a == [a[0]] + a[1..] && b == [b[0]] + b[1..];
      if |a| > 1 {
        assert x[1..] == y[1..];
        ItemsUnique(a[1..], r, b[1..], q);
      } else {
        assert r == x[1..] == y[1..];
      }
    }
  }

  lemma JoinNothing()
    ensures Join([]) == []
  {
  }

  lemma {:induction false} MembersUnique(a: seq<Member<Value>>, r: Text, b: seq<Member<Value>>, q: Text)
    requires (forall i :: 0 <= i < |a| ==> Defined(a[i].value)) && (forall i :: 0 <= i < |b| ==> Defined(b[i].value))
    requires Join(Properties(PlainValues(a))) + [CLOSE_OBJECT] + r == Join(Properties(PlainValues(b))) + [CLOSE_OBJECT] + q
    ensures a == b && r == q
    decreases a, 1
  {
    hide Plain, Join, Quoted;
    JoinNothing();
    var s := Join(Properties(PlainValues(a))) + [CLOSE_OBJECT] + r;
    PropertiesStart(a, r);
    PropertiesStart(b, q);
    if a == [] {
      assert r == s[1..] == q;
    } else {
      var x, y := Following(Properties(PlainValues(a)), CLOSE_OBJECT, r), Following(Properties(PlainValues(b)), CLOSE_OBJECT, q);
      QuotedUnique(a[0].key, [COLON] + (Plain(a[0].value) + x), b[0].key, [COLON] + (Plain(b[0].value) + y));
      assert Plain(a[0].value) + x == ([COLON] + (Plain(a[0].value) + x))[1..];
      assert Plain(b[0].value) + y == ([COLON] + (Plain(b[0].value) + y))[1..];
      PlainUnique(a[0].value, x, b[0].value, y);
      assert a == [a[0]] + a[1..] && b == [b[0]] + b[1..];
      if |a| > 1 {
        assert x[1..] == y[1..];
        MembersUnique(a[1..], r, b[1..], q);
      } else {
        assert r == x[1..] == y[1..];
      }
    }
  }

  /** The text of an object's members opens with its first key, or closes at once. */
  lemma {:induction false} PropertiesStart(a: seq<Member<Value>>, r: Text)
    ensures |Properties(PlainValues(a))| == |a|
    ensures var s := Join(Properties(PlainValues(a))) + [CLOSE_OBJECT] + r;
            && (a == [] <==> s[0] == CLOSE_OBJECT)
            && (a != [] ==>
                  s == Quoted(a[0].key) + ([COLON] + (Plain(a[0].value) + Following(Properties(PlainValues(a)), CLOSE_OBJECT, r)))
                  && Properties(PlainValues(a))[1..] == Properties(PlainValues(a[1..])))
  {
    hide Join, Quoted, Plain, Properties, PlainValues;
    PropertyCount(PlainValues(a));
    if a == [] {
      JoinNothing();
    } else {
      var parts := Properties(PlainValues(a));
      PropertiesStep(a);
      JoinSplits(parts, CLOSE_OBJECT, r);
      Regroup(Quoted(a[0].key), [COLON], Plain(a[0].value), Following(parts, CLOSE_OBJECT, r));
      QuotedStarts(a[0].key);
    }
  }

  lemma {:induction false} PropertiesStep(a: seq<Member<Value>>)
    requires a != []
    ensures Properties(PlainValues(a)) == [Quoted(a[0].key) + [COLON] + Plain(a[0].value)] + Properties(PlainValues(a[1..]))
  {
    hide Quoted, Plain;
  }

  lemma Regroup(a: Text, b: Text, c: Text, d: Text)
    ensures a + b + c + d == a + (b + (c + d))
  {
  }

  lemma QuotedStarts(key: Text)
    ensures Quoted(key) != [] && Quoted(key)[0] == QUOTE
  {
  }

  lemma {:induction false} PropertyCount(members: seq<Member<Text>>)
    ensures |Properties(members)| == |members|
  {
    if members != [] {
      PropertyCount(members[1..]);
    }
  }

  // Sorting: the same members, in strictly increasing key order, and only one such sequence.

  lemma {:induction false} BeforeOrder(a: Text, b: Text, c: Text)
    ensures !Before(a, a)
    ensures Before(a, b) || Before(b, a) || a == b
    ensures Before(a, b) && Before(b, c) ==> Before(a, c)
    decreases |a| + |b| + |c|
  {
    if a != [] {
      BeforeOrder(a[1..], if b == [] then [] else b[1..], if c == [] then [] else c[1..]);
      if b != [] && a[0] == b[0] && a[1..] == b[1..] {
        assert a == [a[0]] + a[1..] && b == [b[0]] + b[1..];
      }
    }
  }

  ghost predicate Ascending<T>(members: seq<Member<T>>) {
    forall i, j :: 0 <= i < j < |members| ==> Before(members[i].key, members[j].key)
  }

  lemma {:induction false} InsertHas<T>(m: Member<T>, sorted: seq<Member<T>>, x: Member<T>)
    ensures x in Insert(m, sorted) <==> x == m || x in sorted
  {
    if sorted != [] && !Before(m.key, sorted[0].key) {
      InsertHas(m, sorted[1..], x);
      assert sorted == [sorted[0]] + sorted[1..];
    }
  }

  lemma {:induction false} SortHas<T>(members: seq<Member<T>>, x: Member<T>)
    ensures x in Sort(members) <==> x in members
  {
    if members != [] {
      SortHas(members[1..], x);
      InsertHas(members[0], Sort(members[1..]), x);
      assert members == [members[0]] + members[1..];
    }
  }

  lemma {:induction false} InsertAscends<T>(m: Member<T>, sorted: seq<Member<T>>)
    requires Ascending(sorted) && forall x :: x in sorted ==> x.key != m.key
    ensures Ascending(Insert(m, sorted))
  {
    hide Before;
    if sorted == [] {
    } else if Before(m.key, sorted[0].key) {
      forall j | 0 <= j < |sorted| ensures Before(m.key, sorted[j].key) {
        BeforeOrder(m.key, sorted[0].key, sorted[j].key);
      }
    } else {
      var rest := Insert(m, sorted[1..]);
      BeforeOrder(sorted[0].key, m.key, m.key);
      assert sorted[0] in sorted && forall x :: x in sorted[1..] ==> x in sorted;
      InsertAscends(m, sorted[1..]);
      forall j | 0 <= j < |rest| ensures Before(sorted[0].key, rest[j].key) {
        InsertHas(m, sorted[1..], rest[j]);
      }
    }
  }

  lemma {:induction false} SortAscends<T>(members: seq<Member<T>>)
    requires DistinctKeys(members)
    ensures Ascending(Sort(members))
  {
    if members != [] {
      SortAscends(members[1..]);
      forall x | x in Sort(members[1..]) ensures x.key != members[0].key {
        SortHas(members[1..], x);
        var i :| 0 <= i < |members[1..]| && members[1..][i] == x;
        assert members[i + 1] == x;
      }
      InsertAscends(members[0], Sort(members[1..]));
    }
  }

  lemma AscendingUnique<T>(a: seq<Member<T>>, b: seq<Member<T>>)
    requires Ascending(a) && Ascending(b) && forall x :: x in a <==> x in b
    ensures a == b
  {
    hide Before;
    assert a != [] ==> a[0] in b;
    assert b != [] ==> b[0] in a;
    if a != [] && b != [] {
      FirstsEqual(a, b);
      forall x ensures x in a[1..] <==> x in b[1..] {
        TailHas(a, x);
        TailHas(b, x);
      }
      AscendingUnique(a[1..], b[1..]);
      assert a == [a[0]] + a[1..] && b == [b[0]] + b[1..];
    }
  }

  lemma FirstsEqual<T>(a: seq<Member<T>>, b: seq<Member<T>>)
    requires a != [] && b != [] && Ascending(a) && Ascending(b) && forall x :: x in a <==> x in b
    ensures a[0] == b[0]
  {
    assert a[0] in b && b[0] in a;
    var i :| 0 <= i < |b| && b[i] == a[0];
    var j :| 0 <= j < |a| && a[j] == b[0];
    BeforeOrder(a[0].key, b[0].key, a[0].key);
  }

  lemma TailHas<T>(a: seq<Member<T>>, x: Member<T>)
    requires a != [] && Ascending(a)
    ensures x in a[1..] <==> x in a && x != a[0]
  {
    BeforeOrder(a[0].key, a[0].key, a[0].key);
    assert a == [a[0]] + a[1..];
    assert forall i :: 0 <= i < |a[1..]| ==> a[1..][i] == a[i + 1];
  }

  // Normal forms agree exactly when the values do.

  lemma {:induction false} NormAt(members: seq<Member<Value>>, i: nat)
    requires i < |members|
    ensures NormValues(members)[i] == Member(members[i].key, Norm(members[i].value))
  {
    if i > 0 {
      NormAt(members[1..], i - 1);
    }
  }

  lemma {:induction false} NormEachAt(items: seq<Value>, i: nat)
    requires i < |items|
    ensures NormEach(items)[i] == Norm(items[i])
  {
    if i > 0 {
      NormEachAt(items[1..], i - 1);
    }
  }

  lemma {:induction false} NormDistinct(members: seq<Member<Value>>)
    requires DistinctKeys(members)
    ensures DistinctKeys(NormValues(members))
  {
    forall i, j | 0 <= i < j < |members| ensures NormValues(members)[i].key != NormValues(members)[j].key {
      NormAt(members, i);
      NormAt(members, j);
    }
  }

  lemma {:induction false} NormDefined(v: Value)
    ensures Defined(Norm(v))
  {
    match v
    case Arr(items) =>
      forall i | 0 <= i < |items| ensures Defined(NormEach(items)[i]) {
        NormEachAt(items, i);
        NormDefined(items[i]);
      }
    case Obj(members) =>
      var sorted := Sort(NormValues(members));
      forall k | 0 <= k < |sorted| ensures Defined(sorted[k].value) {
        SortHas(NormValues(members), sorted[k]);
        var i :| 0 <= i < |members| && NormValues(members)[i] == sorted[k];
        NormAt(members, i);
        NormDefined(members[i].value);
      }
    case _ =>
  }

  lemma {:induction false} SameNormAgrees(v: Value, w: Value)
    requires Norm(v) == Norm(w)
    ensures Agree(v, w)
    decreases v, 0
  {
    match v
    case Arr(items) =>
      forall i | 0 <= i < |items| ensures Agree(items[i], w.items[i]) {
        NormEachAt(items, i);
        NormEachAt(w.items, i);
        SameNormAgrees(items[i], w.items[i]);
      }
    case Obj(members) =>
      hide Sort, NormValues;
      forall j | 0 <= j < |w.members| ensures HasKey(members, w.members[j].key) {
        var i := SharedMember(w.members, members, j);
      }
      forall i | 0 <= i < |members|
        ensures exists j ::
                  0 <= j < |w.members| && members[i].key == w.members[j].key && Agree(members[i].value, w.members[j].value)
      {
        var j := SharedMember(members, w.members, i);
        SameNormAgrees(members[i].value, w.members[j].value);
      }
    case _ =>
  }

  lemma SharedMember(a: seq<Member<Value>>, b: seq<Member<Value>>, i: nat) returns (j: nat)
    requires Sort(NormValues(a)) == Sort(NormValues(b)) && i < |a|
    ensures j < |b| && a[i].key == b[j].key && Norm(a[i].value) == Norm(b[j].value)
  {
    NormAt(a, i);
    var x := NormValues(a)[i];
    SortHas(NormValues(a), x);
    SortHas(NormValues(b), x);
    j :| 0 <= j < |b| && NormValues(b)[j] == x;
    NormAt(b, j);
  }

  lemma {:induction false} AgreeSameNorm(v: Value, w: Value)
    requires Proper(v) && Proper(w) && Agree(v, w)
    ensures Norm(v) == Norm(w)
    decreases v
  {
    hide Sort, NormEach, NormValues;
    match v
    case Arr(items) =>
      forall i | 0 <= i < |items| ensures NormEach(items)[i] == NormEach(w.items)[i] {
        NormEachAt(items, i);
        NormEachAt(w.items, i);
        AgreeSameNorm(items[i], w.items[i]);
      }
      assert NormEach(items) == NormEach(w.items);
    case Obj(members) =>
      forall i | 0 <= i < |members| ensures HasKey(w.members, members[i].key) {
      }
      forall i, j | 0 <= i < |members| && 0 <= j < |w.members| && members[i].key == w.members[j].key
        ensures Norm(members[i].value) == Norm(w.members[j].value)
      {
        var k :| 0 <= k < |w.members| && members[i].key == w.members[k].key && Agree(members[i].value, w.members[k].value);
        assert k == j;
        AgreeSameNorm(members[i].value, w.members[j].value);
      }
      SameMembers(members, w.members);
    case _ =>
  }

  /** Objects with the same keys, and equal normal forms under each, sort to the same sequence. */
  lemma {:induction false} SameMembers(a: seq<Member<Value>>, b: seq<Member<Value>>)
    requires DistinctKeys(a) && DistinctKeys(b)
    requires forall j :: 0 <= j < |b| ==> HasKey(a, b[j].key)
    requires forall i :: 0 <= i < |a| ==> HasKey(b, a[i].key)
    requires forall i, j :: 0 <= i < |a| && 0 <= j < |b| && a[i].key == b[j].key ==> Norm(a[i].value) == Norm(b[j].value)
    ensures Sort(NormValues(a)) == Sort(NormValues(b))
  {
    hide Norm, Sort;
    var x, y := NormValues(a), NormValues(b);
    NormDistinct(a);
    NormDistinct(b);
    SortAscends(x);
    SortAscends(y);
    forall m ensures m in Sort(x) <==> m in Sort(y) {
      SortHas(x, m);
      SortHas(y, m);
      if m in x {
        var i :| 0 <= i < |x| && x[i] == m;
        NormAt(a, i);
        var j :| 0 <= j < |b| && a[i].key == b[j].key;
        NormAt(b, j);
        assert y[j] == m;
      }
      if m in y {
        var j :| 0 <= j < |y| && y[j] == m;
        NormAt(b, j);
        var i :| 0 <= i < |a| && a[i].key == b[j].key;
        NormAt(a, i);
        assert x[i] == m;
      }
    }
    AscendingUnique(Sort(x), Sort(y));
  }

  /** Two values print the same exactly when they agree up to key order, undefined read as null, at every depth. */
  lemma {:induction false} SameTextIff(v: Value, w: Value)
    requires Proper(v) && Proper(w)
    ensures Print(v) == Print(w) <==> Agree(v, w)
  {
    hide Print, Plain, Norm, Defined, Proper;
    PrintIsPlain(v);
    PrintIsPlain(w);
    NormDefined(v);
    NormDefined(w);
    if Print(v) == Print(w) {
      assert Plain(Norm(v)) + [] == Plain(Norm(w)) + [];
      PlainUnique(Norm(v), [], Norm(w), []);
      SameNormAgrees(v, w);
    }
    if Agree(v, w) {
      AgreeSameNorm(v, w);
    }
  }
}
