/** The canonical JSON that request fingerprints are computed over: equal texts mean equal values, and nothing else. */
module CanonicalJson {
  import opened Prelude
  import opened Strings
  import opened Decimals

  /** A property of an object; the same shape holds keys with printed values. */
  datatype Member<T> = Member(key: Text, value: T)

  /** The integers a JavaScript number holds exactly. */
  type SafeInt = n: int | -9007199254740991 <= n <= 9007199254740991

  datatype Value =
    | Undefined
    | Null
    | Bool(b: bool)
    | Int(n: SafeInt)
    | Str(s: Text)
    | Arr(items: seq<Value>)
    | Obj(members: seq<Member<Value>>)

  // An object has one value per key.

  ghost predicate DistinctKeys<T>(members: seq<Member<T>>) {
    forall i, j :: 0 <= i < j < |members| ==> members[i].key != members[j].key
  }

  ghost predicate HasKey<T>(members: seq<Member<T>>, key: Text) {
    exists i :: 0 <= i < |members| && members[i].key == key
  }

  ghost predicate Proper(v: Value) {
    match v
    case Arr(items) => forall i :: 0 <= i < |items| ==> Proper(items[i])
    case Obj(members) => DistinctKeys(members) && forall i :: 0 <= i < |members| ==> Proper(members[i].value)
    case _ => true
  }

  /** The same value, up to the order of object keys, with undefined read as null. */
  ghost predicate Agree(v: Value, w: Value)
    decreases v
  {
    match v
    case Undefined => w.Undefined? || w.Null?
    case Null => w.Undefined? || w.Null?
    case Bool(b) => w == v
    case Int(n) => w == v
    case Str(s) => w == v
    case Arr(items) =>
      w.Arr? && |w.items| == |items| && forall i :: 0 <= i < |items| ==> Agree(items[i], w.items[i])
    case Obj(members) =>
      && w.Obj?
      && (forall j :: 0 <= j < |w.members| ==> HasKey(members, w.members[j].key))
      && (forall i :: 0 <= i < |members| ==>
            exists j :: 0 <= j < |w.members| && members[i].key == w.members[j].key && Agree(members[i].value, w.members[j].value))
  }

  // Sorting by key, in the order of code units.

  predicate Before(a: Text, b: Text) {
    if b == [] then false
    else if a == [] then true
    else a[0] < b[0] || (a[0] == b[0] && Before(a[1..], b[1..]))
  }

  function Insert<T>(m: Member<T>, sorted: seq<Member<T>>): seq<Member<T>> {
    if sorted == [] || Before(m.key, sorted[0].key) then [m] + sorted else [sorted[0]] + Insert(m, sorted[1..])
  }

  function Sort<T>(members: seq<Member<T>>): seq<Member<T>> {
    if members == [] then [] else Insert(members[0], Sort(members[1..]))
  }

  // Printing.

  function Code(s: string): Text {
    if s == [] then [] else
      var head: char := s[0];
      [if (head as int) < 0x10000 then head as int else 0xFFFD] + Code(s[1..])
  }

  const QUOTE: Unit := 0x22
  const BACKSLASH: Unit := 0x5C
  const COMMA: Unit := 0x2C
  const COLON: Unit := 0x3A
  const OPEN_ARRAY: Unit := 0x5B
  const CLOSE_ARRAY: Unit := 0x5D
  const OPEN_OBJECT: Unit := 0x7B
  const CLOSE_OBJECT: Unit := 0x7D

  function Hex(d: nat): Unit
    requires d < 16
  {
    if d < 10 then 0x30 + d else 0x61 + d - 10
  }

  /** One code unit between quotes; an unpaired surrogate or a control character is escaped. */
  function Escaped(u: Unit): Text {
    if u == QUOTE || u == BACKSLASH then [BACKSLASH, u]
    else if u == 8 then [BACKSLASH, 0x62]
    else if u == 9 then [BACKSLASH, 0x74]
    else if u == 10 then [BACKSLASH, 0x6E]
    else if u == 12 then [BACKSLASH, 0x66]
    else if u == 13 then [BACKSLASH, 0x72]
    else if u < 0x20 || High(u) || Low(u)
    then [BACKSLASH, 0x75, Hex(u / 4096), Hex(u / 256 % 16), Hex(u / 16 % 16), Hex(u % 16)]
    else [u]
  }

  function Body(s: Text): Text {
    if s == [] then []
    else if High(s[0]) && |s| > 1 && Low(s[1]) then [s[0], s[1]] + Body(s[2..])
    else Escaped(s[0]) + Body(s[1..])
  }

  function Quoted(s: Text): Text {
    [QUOTE] + Body(s) + [QUOTE]
  }

  function PrintInt(n: int): Text {
    if n < 0 then Code("-" + Digits(-n)) else Code(Digits(n))
  }

  /** The parts with a comma between them. */
  function Join(parts: seq<Text>): Text {
    if parts == [] then []
    else if |parts| == 1 then parts[0]
    else parts[0] + [COMMA] + Join(parts[1..])
  }

  function Properties(members: seq<Member<Text>>): seq<Text> {
    if members == [] then [] else [Quoted(members[0].key) + [COLON] + members[0].value] + Properties(members[1..])
  }

  function Print(v: Value): Text {
    match v
    case Undefined => Code("null")
    case Null => Code("null")
    case Bool(b) => if b then Code("true") else Code("false")
    case Int(n) => PrintInt(n)
    case Str(s) => Quoted(s)
    case Arr(items) => [OPEN_ARRAY] + Join(PrintEach(items)) + [CLOSE_ARRAY]
    case Obj(members) => [OPEN_OBJECT] + Join(Properties(Sort(PrintValues(members)))) + [CLOSE_OBJECT]
  }

  function PrintEach(items: seq<Value>): seq<Text> {
    if items == [] then [] else [Print(items[0])] + PrintEach(items[1..])
  }

  function PrintValues(members: seq<Member<Value>>): seq<Member<Text>> {
    if members == [] then [] else [Member(members[0].key, Print(members[0].value))] + PrintValues(members[1..])
  }

  // The normal form of a value: keys sorted at every level, undefined replaced by null.

  function Norm(v: Value): Value {
    match v
    case Undefined => Null
    case Arr(items) => Arr(NormEach(items))
    case Obj(members) => Obj(Sort(NormValues(members)))
    case _ => v
  }

  function NormEach(items: seq<Value>): (r: seq<Value>)
    ensures |r| == |items|
  {
    if items == [] then [] else [Norm(items[0])] + NormEach(items[1..])
  }

  function NormValues(members: seq<Member<Value>>): (r: seq<Member<Value>>)
    ensures |r| == |members|
  {
    if members == [] then [] else [Member(members[0].key, Norm(members[0].value))] + NormValues(members[1..])
  }
}
