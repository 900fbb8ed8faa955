/** The bytes a native transfer is signed over, and why no two different transfers share them. */
module Intertrain {
  import opened Prelude
  import opened Strings

  type Byte = b: int | 0 <= b < 256
  /** A Unicode scalar value: a code point that is not a surrogate. */
  type Scalar = c: int | 0 <= c < 0xD800 || 0xE000 <= c <= 0x10FFFF witness 0

  // Little-endian base 128, the high bit of each byte but the last set.

  function Low7(n: nat): (b: Byte)
    ensures b < 128
  {
    n % 128
  }

  function Shift7(n: nat): (r: nat)
    ensures n > 0 ==> r < n
    ensures r == 0 <==> n < 128
  {
    n / 128
  }

  function Varint(n: nat): (bytes: seq<Byte>)
    ensures |bytes| > 0
  {
    if n < 128 then [n] else [Low7(n) + 128] + Varint(Shift7(n))
  }

  lemma {:induction false} VarintStep(n: nat)
    ensures Varint(n) == if Shift7(n) == 0 then [Low7(n)] else [Low7(n) + 128] + Varint(Shift7(n))
  {
  }

  method WriteVarint(value: nat) returns (bytes: seq<Byte>)
    ensures bytes == Varint(value)
  {
    hide Varint, Low7, Shift7;
    var number := value;
    bytes := [];
    var more := true;
    while more
      invariant Varint(value) == bytes + (if more then Varint(number) else [])
      decreases if more then number + 1 else 0
    {
      VarintStep(number);
      var byte := Low7(number);
      var shifted := Shift7(number);
      if shifted == 0 {
        bytes := bytes + [byte];
      } else {
        assert bytes + ([byte + 128] + Varint(shifted)) == bytes + [byte + 128] + Varint(shifted);
        bytes := bytes + [byte + 128];
      }
      number, more := shifted, shifted != 0;
    }
  }

  /** The number left after `k` rounds of the loop; shifting a negative number right rounds down. */
  function Shifted(value: int, k: nat): int {
    if k == 0 then value else Shifted(value, k - 1) / 128
  }

  ghost predicate LoopEnds(value: int) {
    exists k :: Shifted(value, k) == 0
  }

  /** The loop reaches zero exactly for natural numbers; a negative one it would shift for ever. */
  lemma LoopEndsIff(value: int)
    ensures LoopEnds(value) <==> value >= 0
  {
    if value >= 0 {
      ShrinksToZero(value, value);
    } else {
      forall k: nat ensures Shifted(value, k) < 0 {
        StaysNegative(value, k);
      }
    }
  }

  lemma {:induction false} ShrinksToZero(value: nat, k: nat)
    ensures Shifted(value, k) >= 0 && (Shifted(value, k) > 0 ==> Shifted(value, k) + k <= value)
  {
    if k > 0 {
      ShrinksToZero(value, k - 1);
    }
  }

  lemma {:induction false} StaysNegative(value: int, k: nat)
    requires value < 0
    ensures Shifted(value, k) < 0
  {
    if k > 0 {
      StaysNegative(value, k - 1);
    }
  }

  // UTF-8, from UTF-16 with unpaired surrogates replaced.

  function Scalars(s: Text): seq<Scalar> {
    if s == [] then []
    else if High(s[0]) && |s| > 1 && Low(s[1])
    then [0x10000 + (s[0] - 0xD800) * 0x400 + (s[1] - 0xDC00)] + Scalars(s[2..])
    else if High(s[0]) || Low(s[0]) then [0xFFFD] + Scalars(s[1..])
    else [s[0]] + Scalars(s[1..])
  }

  /** Every surrogate is half of a pair. */
  predicate WellFormed(s: Text) {
    if s == [] then true
    else if High(s[0]) then |s| > 1 && Low(s[1]) && WellFormed(s[2..])
    else !Low(s[0]) && WellFormed(s[1..])
  }

  function Units(cs: seq<Scalar>): Text {
    if cs == [] then []
    else if cs[0] < 0x10000 then [cs[0]] + Units(cs[1..])
    else [0xD800 + (cs[0] - 0x10000) / 0x400, 0xDC00 + (cs[0] - 0x10000) % 0x400] + Units(cs[1..])
  }

  lemma {:induction false} WellFormedRecovered(s: Text)
    requires WellFormed(s)
    ensures Units(Scalars(s)) == s
  {
    if s != [] {
      if High(s[0]) {
        var c: int := 0x10000 + (s[0] as int - 0xD800) * 0x400 + (s[1] as int - 0xDC00);
        assert Scalars(s) == [c] + Scalars(s[2..]);
        assert (c - 0x10000) / 0x400 == s[0] - 0xD800 && (c - 0x10000) % 0x400 == s[1] - 0xDC00;
        WellFormedRecovered(s[2..]);
        assert s == [s[0], s[1]] + s[2..];
      } else {
        assert Scalars(s) == [s[0]] + Scalars(s[1..]);
        WellFormedRecovered(s[1..]);
      }
    }
  }

  function EncodeScalar(c: Scalar): seq<Byte> {
    if c < 0x80 then [c]
    else if c < 0x800 then [0xC0 + c / 64, 0x80 + c % 64]
    else if c < 0x10000 then [0xE0 + c / 4096, 0x80 + c / 64 % 64, 0x80 + c % 64]
    else [0xF0 + c / 262144, 0x80 + c / 4096 % 64, 0x80 + c / 64 % 64, 0x80 + c % 64]
  }

  function Utf8(cs: seq<Scalar>): seq<Byte> {
    if cs == [] then [] else EncodeScalar(cs[0]) + Utf8(cs[1..])
  }

  /** How many bytes the first byte announces. */
  function Width(b: Byte): nat {
    if b < 0x80 then 1 else if b < 0xE0 then 2 else if b < 0xF0 then 3 else 4
  }

  function DecodeScalar(bytes: seq<Byte>): int
    requires bytes != [] && |bytes| >= Width(bytes[0])
  {
    var tail := (i: nat) requires i < |bytes| => bytes[i] as int - 0x80;
    match Width(bytes[0])
    case 1 => bytes[0]
    case 2 => (bytes[0] as int - 0xC0) * 64 + tail(1)
    case 3 => ((bytes[0] as int - 0xE0) * 64 + tail(1)) * 64 + tail(2)
    case _ => (((bytes[0] as int - 0xF0) * 64 + tail(1)) * 64 + tail(2)) * 64 + tail(3)
  }

  function FromUtf8(bytes: seq<Byte>): seq<int> {
    if bytes == [] || |bytes| < Width(bytes[0]) then []
    else [DecodeScalar(bytes)] + FromUtf8(bytes[Width(bytes[0])..])
  }

  lemma ScalarRecovered(c: Scalar, rest: seq<Byte>)
    ensures var bytes := EncodeScalar(c) + rest;
            Width(bytes[0]) == |EncodeScalar(c)| && DecodeScalar(bytes) == c
  {
    if 0x800 <= c < 0x10000 {
      assert c / 64 == c / 4096 * 64 + c / 64 % 64 by { assert c / 64 / 64 == c / 4096; }
    } else if c >= 0x10000 {
      assert c / 64 / 64 == c / 4096 && c / 4096 / 64 == c / 262144;
    }
  }

  lemma {:induction false} Utf8Recovered(cs: seq<Scalar>)
    ensures FromUtf8(Utf8(cs)) == cs
  {
    if cs != [] {
      var head, rest := EncodeScalar(cs[0]), Utf8(cs[1..]);
      ScalarRecovered(cs[0], rest);
      assert (head + rest)[|head|..] == rest;
      Utf8Recovered(cs[1..]);
    }
  }

  // The transfer.

  /** What bech32m decoding of an address text gives. */
  datatype Address = Address(prefix: string, bytes: seq<Byte>)

  /** The caller admits any safe integer as the nonce, a negative one included. */
  datatype Transfer = Transfer(chainId: Text, from: Address, to: Address, nonce: int, amount: nat, fee: nat,
                               publicKey: seq<Byte>, memo: Text)

  datatype Outcome = Signed(bytes: seq<Byte>) | MalformedKey | MalformedAddress | Endless

  predicate ValidAddress(a: Address) {
    a.prefix == "mna" && |a.bytes| == 21 && a.bytes[0] == 1
  }

  function Prefixed(s: Text): seq<Byte> {
    Varint(|Utf8(Scalars(s))|) + Utf8(Scalars(s))
  }

  function Parts(t: Transfer): seq<seq<Byte>>
    requires t.nonce >= 0
  {
    [[1], Prefixed(t.chainId), Varint(t.nonce), t.from.bytes, t.to.bytes, Varint(t.amount), Varint(t.fee), t.publicKey,
     Prefixed(t.memo)]
  }

  function Flatten(parts: seq<seq<Byte>>): seq<Byte> {
    if parts == [] then [] else Flatten(parts[..|parts| - 1]) + parts[|parts| - 1]
  }

  /** The nonce is written before the addresses are looked at; a negative one is shifted for ever. */
  function TransferBytes(t: Transfer): Outcome {
    if |t.publicKey| != 32 then MalformedKey
    else if t.nonce < 0 then Endless
    else if !ValidAddress(t.from) || !ValidAddress(t.to) then MalformedAddress
    else Signed(Flatten(Parts(t)))
  }

  /** A native address: the prefix, a version byte of one, and twenty more bytes. */
  predicate Native(a: Address) {
    a.prefix == "mna" && |a.bytes| == 21 && a.bytes[0] == 1
  }

  /** What can be signed, and what is said of anything else, in the order it is found. */
  lemma SignableMeans(t: Transfer)
    ensures TransferBytes(t).Signed? <==> |t.publicKey| == 32 && t.nonce >= 0 && Native(t.from) && Native(t.to)
    ensures TransferBytes(t) == MalformedKey <==> |t.publicKey| != 32
    ensures TransferBytes(t) == Endless <==> |t.publicKey| == 32 && t.nonce < 0
    ensures TransferBytes(t) == MalformedAddress <==>
              |t.publicKey| == 32 && t.nonce >= 0 && !(Native(t.from) && Native(t.to))
  {
    hide Flatten, Parts;
  }

  method Concat(parts: seq<seq<Byte>>) returns (result: array<Byte>)
    ensures fresh(result) && result[..] == Flatten(parts)
  {
    var size := 0;
    for i := 0 to |parts|
      invariant size == |Flatten(parts[..i])|
    {
      assert parts[..i + 1][..i] == parts[..i];
      size := size + |parts[i]|;
    }
    assert parts[..|parts|] == parts;
    result := new Byte[size](_ => 0);
    var offset := 0;
    for i := 0 to |parts|
      invariant offset == |Flatten(parts[..i])| <= size
      invariant result[..offset] == Flatten(parts[..i])
    {
      assert parts[..i + 1][..i] == parts[..i];
      SizeGrows(parts, i + 1);
      var part := parts[i];
      for j := 0 to |part|
        invariant result[..offset] == Flatten(parts[..i])
        invariant result[offset..offset + j] == part[..j]
      {
        result[offset + j] := part[j];
      }
      assert result[..offset + |part|] == result[..offset] + result[offset..offset + |part|];
      offset := offset + |part|;
    }
    assert parts[..|parts|] == parts;
  }

  lemma {:induction false} SizeGrows(parts: seq<seq<Byte>>, i: nat)
    requires i <= |parts|
    ensures |Flatten(parts[..i])| <= |Flatten(parts)|
    decreases |parts|
  {
    if i == |parts| {
      assert parts[..i] == parts;
    } else {
      var init := parts[..|parts| - 1];
      assert init[..i] == parts[..i];
      SizeGrows(init, i);
    }
  }

  method WriteString(value: Text) returns (bytes: seq<Byte>)
    ensures bytes == Prefixed(value)
  {
    var utf8 := Utf8(Scalars(value));
    var length := WriteVarint(|utf8|);
    var joined := Concat([length, utf8]);
    bytes := joined[..];
    FlattenTwo(length, utf8);
  }

  lemma FlattenTwo(a: seq<Byte>, b: seq<Byte>)
    ensures Flatten([a, b]) == a + b
  {
    assert [a, b][..1] == [a] && [a][..0] == [];
    assert Flatten([a]) == Flatten([]) + a == a;
  }

  /** Signing comes to an end: the loop that writes the nonce is either not reached or ends. */
  ghost predicate SigningEnds(t: Transfer) {
    |t.publicKey| == 32 ==> LoopEnds(t.nonce)
  }

  /** With a well-formed key, signing ends exactly when the nonce is not negative. */
  lemma SigningEndsIff(t: Transfer)
    ensures SigningEnds(t) <==> |t.publicKey| != 32 || t.nonce >= 0
    ensures SigningEnds(t) <==> TransferBytes(t) != Endless
  {
    hide LoopEnds;
    LoopEndsIff(t.nonce);
  }

  /** For every transfer whose signing ends at all. */
  method IntertrainTransferBytes(t: Transfer) returns (outcome: Outcome)
    requires SigningEnds(t)
    ensures outcome == TransferBytes(t) && outcome != Endless
  {
    SigningEndsIff(t);
    if |t.publicKey| != 32 {
      return MalformedKey;
    }
    var chainId := WriteString(t.chainId);
    var nonce := WriteVarint(t.nonce);
    if !ValidAddress(t.from) || !ValidAddress(t.to) {
      return MalformedAddress;
    }
    var amount := WriteVarint(t.amount);
    var fee := WriteVarint(t.fee);
    var memo := WriteString(t.memo);
    var result := Concat([[1], chainId, nonce, t.from.bytes, t.to.bytes, amount, fee, t.publicKey, memo]);
    outcome := Signed(result[..]);
  }

  // A reader for the bytes.

  /** Reads one varint: its value and where the rest begins. */
  function ReadVarint(bytes: seq<Byte>): (r: Option<(nat, seq<Byte>)>)
  {
    if bytes == [] then None
    else if bytes[0] < 128 then Some((bytes[0], bytes[1..]))
    else
      match ReadVarint(bytes[1..])
      case None => None
      case Some((high, rest)) => Some((high * 128 + bytes[0] - 128, rest))
  }

  lemma {:induction false} VarintRecovered(n: nat, rest: seq<Byte>)
    ensures ReadVarint(Varint(n) + rest) == Some((n, rest))
  {
    if n < 128 {
      assert (Varint(n) + rest)[1..] == rest;
    } else {
      var first: Byte, more := Low7(n) + 128, Varint(Shift7(n)) + rest;
      VarintRecovered(Shift7(n), rest);
      assert Varint(n) + rest == [first] + more;
      ContinuedRead(first, more, Shift7(n), rest);
    }
  }

  lemma {:induction false} ContinuedRead(first: Byte, more: seq<Byte>, high: nat, rest: seq<Byte>)
    requires first >= 128 && ReadVarint(more) == Some((high, rest))
    ensures ReadVarint([first] + more) == Some((high * 128 + first - 128, rest))
  {
    assert ([first] + more)[1..] == more;
  }

  function ReadBytes(bytes: seq<Byte>, n: nat): Option<(seq<Byte>, seq<Byte>)> {
    if |bytes| < n then None else Some((bytes[..n], bytes[n..]))
  }

  function ReadText(bytes: seq<Byte>): Option<(seq<int>, seq<Byte>)> {
    match ReadVarint(bytes)
    case None => None
    case Some((n, rest)) => if |rest| < n then None else Some((FromUtf8(rest[..n]), rest[n..]))
  }

  lemma {:induction false} TextRecovered(s: Text, rest: seq<Byte>)
    ensures ReadText(Prefixed(s) + rest) == Some((Scalars(s), rest))
  {
    var utf8 := Utf8(Scalars(s));
    assert Prefixed(s) + rest == Varint(|utf8|) + (utf8 + rest);
    VarintRecovered(|utf8|, utf8 + rest);
    assert (utf8 + rest)[..|utf8|] == utf8 && (utf8 + rest)[|utf8|..] == rest;
    Utf8Recovered(Scalars(s));
  }

  datatype Fields = Fields(chainId: seq<int>, nonce: int, from: seq<Byte>, to: seq<Byte>, amount: nat, fee: nat,
                           publicKey: seq<Byte>, memo: seq<int>)

  function FieldsOf(t: Transfer): Fields {
    Fields(Scalars(t.chainId), t.nonce, t.from.bytes, t.to.bytes, t.amount, t.fee, t.publicKey, Scalars(t.memo))
  }

  /** Reads the fields back in order; a version byte other than 1 or any byte left over is refused. */
  function ReadTransfer(bytes: seq<Byte>): Option<Fields> {
    if bytes == [] || bytes[0] != 1 then None else
      match ReadText(bytes[1..]) case None => None case Some((chainId, r1)) =>
      match ReadVarint(r1) case None => None case Some((nonce, r2)) =>
      match ReadBytes(r2, 21) case None => None case Some((from, r3)) =>
      match ReadBytes(r3, 21) case None => None case Some((to, r4)) =>
      match ReadVarint(r4) case None => None case Some((amount, r5)) =>
      match ReadVarint(r5) case None => None case Some((fee, r6)) =>
      match ReadBytes(r6, 32) case None => None case Some((publicKey, r7)) =>
      match ReadText(r7) case None => None case Some((memo, r8)) =>
        if r8 != [] then None else Some(Fields(chainId, nonce, from, to, amount, fee, publicKey, memo))
  }

  function From(parts: seq<seq<Byte>>, i: nat): seq<Byte>
    requires i <= |parts|
    decreases |parts| - i
  {
    if i == |parts| then [] else parts[i] + From(parts, i + 1)
  }

  lemma {:induction false} FlattenFrom(parts: seq<seq<Byte>>, i: nat)
    requires i <= |parts|
    ensures Flatten(parts) == Flatten(parts[..i]) + From(parts, i)
    decreases |parts| - i
  {
    if i == |parts| {
      assert parts[..i] == parts;
    } else {
      FlattenFrom(parts, i + 1);
      assert parts[..i + 1][..i] == parts[..i];
    }
  }

  lemma BytesRecovered(bytes: seq<Byte>, rest: seq<Byte>)
    ensures ReadBytes(bytes + rest, |bytes|) == Some((bytes, rest))
  {
    assert (bytes + rest)[..|bytes|] == bytes && (bytes + rest)[|bytes|..] == rest;
  }

  /** The reader recovers every field of every transfer that can be signed. */
  lemma TransferRecovered(t: Transfer)
    requires TransferBytes(t).Signed?
    ensures ReadTransfer(TransferBytes(t).bytes) == Some(FieldsOf(t))
  {
    hide ReadVarint, ReadText, ReadBytes, Varint, Prefixed, Scalars, Flatten;
    var parts := Parts(t);
    FlattenFrom(parts, 0);
    assert Flatten([]) == [] by { FlattenEmpty(); }
    assert parts[..0] == [];
    assert Flatten(parts) == From(parts, 0);
    assert From(parts, 9) == [];
    assert From(parts, 0) == [1] + From(parts, 1);
    assert ([1] + From(parts, 1))[1..] == From(parts, 1);
    assert forall i :: 0 <= i < 9 ==> From(parts, i) == parts[i] + From(parts, i + 1);
    TextRecovered(t.chainId, From(parts, 2));
    VarintRecovered(t.nonce, From(parts, 3));
    BytesRecovered(t.from.bytes, From(parts, 4));
    BytesRecovered(t.to.bytes, From(parts, 5));
    VarintRecovered(t.amount, From(parts, 6));
    VarintRecovered(t.fee, From(parts, 7));
    BytesRecovered(t.publicKey, From(parts, 8));
    TextRecovered(t.memo, From(parts, 9));
  }

  lemma FlattenEmpty()
    ensures Flatten([]) == []
  {
  }

  /** Two signable transfers have the same bytes exactly when they agree on every field the bytes carry. */
  lemma SameBytesIff(t: Transfer, u: Transfer)
    requires TransferBytes(t).Signed? && TransferBytes(u).Signed?
    ensures TransferBytes(t) == TransferBytes(u) <==> FieldsOf(t) == FieldsOf(u)
  {
    hide Scalars, Varint, Flatten;
    TransferRecovered(t);
    TransferRecovered(u);
  }

  /** With well-formed text, two transfers with the same signing bytes are the same transfer. */
  lemma Unambiguous(t: Transfer, u: Transfer)
    requires TransferBytes(t).Signed? && TransferBytes(t) == TransferBytes(u)
    requires WellFormed(t.chainId) && WellFormed(t.memo) && WellFormed(u.chainId) && WellFormed(u.memo)
    ensures t == u
  {
    hide Scalars, Varint, Flatten, Parts, Units;
    SameBytesIff(t, u);
    WellFormedRecovered(t.chainId);
    WellFormedRecovered(u.chainId);
    WellFormedRecovered(t.memo);
    WellFormedRecovered(u.memo);
  }

  /** The replacement character appears among the scalar values of the text. */
  predicate Replaces(s: Text) {
    0xFFFD in Scalars(s)
  }

  lemma {:induction false} NothingReplaced(s: Text)
    requires !Replaces(s)
    ensures WellFormed(s)
  {
    if s != [] {
      if High(s[0]) && |s| > 1 && Low(s[1]) {
        assert forall c :: c in Scalars(s[2..]) ==> c in Scalars(s);
        NothingReplaced(s[2..]);
      } else {
        assert Scalars(s)[0] == if High(s[0]) || Low(s[0]) then 0xFFFD else s[0];
        assert forall c :: c in Scalars(s[1..]) ==> c in Scalars(s);
        NothingReplaced(s[1..]);
      }
    }
  }

  /**
   * Another text with the same scalar values: the first unpaired surrogate becomes a replacement character, or the
   * first replacement character an unpaired surrogate.
   */
  function Twin(s: Text): Text
    requires Replaces(s)
  {
    if High(s[0]) && |s| > 1 && Low(s[1]) then
      assert 0xFFFD in Scalars(s[2..]);
      [s[0], s[1]] + Twin(s[2..])
    else if High(s[0]) || Low(s[0]) then [0xFFFD] + s[1..]
    else if s[0] != 0xFFFD then
      assert 0xFFFD in Scalars(s[1..]);
      [s[0]] + Twin(s[1..])
    else if |s| > 1 && Low(s[1]) then [0xFFFD, 0xFFFD] + s[2..]
    else [0xD800] + s[1..]
  }

  lemma {:induction false} TwinReads(s: Text)
    requires Replaces(s)
    ensures Twin(s) != s && Scalars(Twin(s)) == Scalars(s)
  {
    var t := Twin(s);
    if High(s[0]) && |s| > 1 && Low(s[1]) {
      TwinReads(s[2..]);
      assert t[2..] == Twin(s[2..]);
    } else if High(s[0]) || Low(s[0]) {
      assert t[1..] == s[1..];
    } else if s[0] != 0xFFFD {
      TwinReads(s[1..]);
      assert t[1..] == Twin(s[1..]);
    } else if |s| > 1 && Low(s[1]) {
      assert t[1..] == [0xFFFD] + s[2..] && t[1..][1..] == s[2..] && s[1..][1..] == s[2..];
      assert Scalars(t[1..]) == Scalars(s[1..]);
    } else {
      assert t[1..] == s[1..];
    }
  }

  /** No other transfer has these signing bytes exactly when neither text reads as holding a replacement character. */
  lemma UnambiguousIff(t: Transfer)
    requires TransferBytes(t).Signed?
    ensures (forall u :: TransferBytes(u) == TransferBytes(t) ==> u == t) <==> !Replaces(t.chainId) && !Replaces(t.memo)
  {
    hide Scalars, Varint, Flatten, Parts, Units, Twin, Replaces;
    if Replaces(t.chainId) {
      TwinReads(t.chainId);
      SameFields(t, t.(chainId := Twin(t.chainId)));
    } else if Replaces(t.memo) {
      TwinReads(t.memo);
      SameFields(t, t.(memo := Twin(t.memo)));
    } else {
      forall u | TransferBytes(u) == TransferBytes(t) ensures u == t {
        SameBytesIff(t, u);
        SameScalars(t.chainId, u.chainId);
        SameScalars(t.memo, u.memo);
      }
    }
  }

  lemma {:induction false} SameScalars(a: Text, b: Text)
    requires Scalars(a) == Scalars(b) && !Replaces(a)
    ensures a == b
  {
    hide Scalars, WellFormed, Units;
    NothingReplaced(a);
    NothingReplaced(b);
    WellFormedRecovered(a);
    WellFormedRecovered(b);
  }

  lemma SameFields(t: Transfer, u: Transfer)
    requires TransferBytes(t).Signed? && FieldsOf(t) == FieldsOf(u) && t == u.(chainId := t.chainId, memo := t.memo)
    ensures TransferBytes(u) == TransferBytes(t)
  {
    hide Scalars, Varint, Flatten;
    SameBytesIff(t, u);
  }

  /** Without it they need not be: unpaired surrogates all become the replacement character. */
  lemma UnpairedSurrogatesCollide(t: Transfer)
    requires TransferBytes(t).Signed?
    ensures var a, b := t.(memo := [0xD800]), t.(memo := [0xD801]);
            a != b && TransferBytes(a).Signed? && TransferBytes(a) == TransferBytes(b)
  {
    hide Varint, Flatten;
    assert Scalars([0xD800]) == [0xFFFD] && Scalars([0xD801]) == [0xFFFD];
  }
}
