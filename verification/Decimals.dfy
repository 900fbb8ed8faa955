/**
 * Money as DECIMAL strings, computed through integers scaled by 10^18.
 *
 * The strings are what the server passes around; the integers are what it computes with. The lemmas at the
 * end of each section are what lets the rest of the model count money in units of 10^-18.
 */
module Decimals {
  import opened Prelude
  import opened Strings

  const SCALE := 18
  const USDC_DECIMALS := 6

  // Digits of natural numbers.

  predicate IsDigit(c: char) {
    '0' <= c <= '9'
  }

  ghost predicate AllDigits(s: string) {
    forall c :: c in s ==> IsDigit(c)
  }

  function DigitOf(c: char): nat
    requires IsDigit(c)
  {
    (c - '0') as nat
  }

  function CharOf(d: nat): char
    requires d < 10
  {
    '0' + d as char
  }

  /** Decimal digits without leading zeros; zero prints as one digit. */
  function Digits(n: nat): string {
    if n < 10 then [CharOf(n)] else Digits(n / 10) + [CharOf(n % 10)]
  }

  /** The value of a string of digits, None if any character is not a digit. The empty string is zero. */
  function ParseNat(s: string): Option<nat> {
    if s == "" then Some(0)
    else if !IsDigit(s[|s| - 1]) then None
    else
      match ParseNat(s[..|s| - 1])
      case None => None
      case Some(n) => Some(10 * n + DigitOf(s[|s| - 1]))
  }

  function ParseInt(s: string): Option<int> {
    if s != "" && s[0] == '-' then
      (match ParseNat(s[1..])
       case None => None
       case Some(n) => if |s| == 1 then None else Some(-(n as int)))
    else
      match ParseNat(s)
      case None => None
      case Some(n) => Some(n)
  }

  function Zeros(n: nat): string {
    seq(n, _ => '0')
  }

  function PadStart(s: string, width: nat): (r: string)
    ensures |r| == if |s| >= width then |s| else width
  {
    if |s| >= width then s else Zeros(width - |s|) + s
  }

  function PadEnd(s: string, width: nat): (r: string)
    ensures |r| == if |s| >= width then |s| else width
  {
    if |s| >= width then s else s + Zeros(width - |s|)
  }

  function StripTrailingZeros(s: string): string {
    if s != "" && s[|s| - 1] == '0' then StripTrailingZeros(s[..|s| - 1]) else s
  }

  /** The part before the first dot, and whether there is one. */
  function UntilDot(s: string): string {
    if s == "" || s[0] == '.' then "" else [s[0]] + UntilDot(s[1..])
  }

  /** The two leading fields of the string split at its dots. */
  function SplitAtDot(s: string): (string, string) {
    var whole := UntilDot(s);
    (whole, if |whole| < |s| then UntilDot(s[|whole| + 1..]) else "")
  }

  // StakeRepository's helpers.

  function ParseScaled(s: string): Option<int> {
    var (whole, fraction) := SplitAtDot(s);
    ParseInt(whole + PadEnd(fraction, SCALE)[..SCALE])
  }

  function ToUnits(value: string): Option<int> {
    ParseScaled(TrimEnd(TrimStart(value)))
  }

  /** The digits of an amount, at least one of them before the point. */
  function Padded(units: nat, decimals: nat): (r: string)
    ensures |r| > decimals
  {
    PadStart(Digits(units), decimals + 1)
  }

  function Fraction(units: nat, decimals: nat): string {
    var digits := Padded(units, decimals);
    StripTrailingZeros(digits[|digits| - decimals..])
  }

  function Whole(units: nat, decimals: nat): string {
    var digits := Padded(units, decimals);
    digits[..|digits| - decimals]
  }

  function Unsigned(units: nat, decimals: nat): string {
    var fraction := Fraction(units, decimals);
    Whole(units, decimals) + (if fraction != "" then "." + fraction else "")
  }

  function FromUnits(units: int): string {
    if units < 0 then "-" + Unsigned(-units, SCALE) else Unsigned(units, SCALE)
  }

  // Lemmas about digits.

  lemma {:induction false} DigitsParse(n: nat)
    ensures Digits(n) != "" && AllDigits(Digits(n)) && ParseNat(Digits(n)) == Some(n)
  {
    if n >= 10 {
      DigitsParse(n / 10);
      assert Digits(n)[..|Digits(n)| - 1] == Digits(n / 10);
    } else {
      assert ParseNat("") == Some(0);
      assert Digits(n)[..0] == "";
    }
  }

  lemma {:induction false} LeadingZeros(n: nat, s: string)
    requires AllDigits(s)
    ensures ParseNat(Zeros(n) + s) == ParseNat(s)
    ensures AllDigits(Zeros(n) + s)
    decreases |s|, n
  {
    if s == "" {
      assert Zeros(n) + s == Zeros(n);
      if n > 0 {
        LeadingZeros(n - 1, "");
        assert Zeros(n - 1) + "" == Zeros(n - 1);
        assert Zeros(n)[..n - 1] == Zeros(n - 1);
      }
    } else {
      var init := s[..|s| - 1];
      LeadingZeros(n, init);
      assert (Zeros(n) + s)[..|Zeros(n) + s| - 1] == Zeros(n) + init;
    }
  }

  lemma {:induction false} StripThenPad(s: string)
    ensures var r := StripTrailingZeros(s);
            |r| <= |s| && r == s[..|r|] && PadEnd(r, |s|) == s
  {
    if s != "" && s[|s| - 1] == '0' {
      var init := s[..|s| - 1];
      StripThenPad(init);
      var r := StripTrailingZeros(s);
      var k := |init| - |r|;
      assert Zeros(k) + "0" == Zeros(k + 1);
      assert init == r + Zeros(k);
      assert s == init + "0" == r + (Zeros(k) + "0");
    } else {
      assert s == s[..|s|];
    }
  }

  lemma {:induction false} UntilDotOf(a: string, b: string)
    requires '.' !in a
    ensures UntilDot(a) == a && UntilDot(a + "." + b) == a
  {
    if a != "" {
      var rest := a[1..];
      UntilDotOf(rest, b);
      assert (a + "." + b)[1..] == rest + "." + b;
      assert a == [a[0]] + rest;
    }
  }

  lemma PaddedParses(units: nat, decimals: nat)
    ensures var digits := Padded(units, decimals);
            AllDigits(digits) && ParseNat(digits) == Some(units)
  {
    DigitsParse(units);
    var d := Digits(units);
    if |d| < decimals + 1 {
      LeadingZeros(decimals + 1 - |d|, d);
    }
  }

  /** The two fields around the point hold digits only, and together they are the padded digits again. */
  lemma FieldsRejoin(units: nat, decimals: nat)
    ensures var whole, fraction := Whole(units, decimals), Fraction(units, decimals);
            && AllDigits(whole) && AllDigits(fraction) && whole != "" && |fraction| <= decimals
            && whole + PadEnd(fraction, decimals) == Padded(units, decimals)
  {
    hide Padded, PadEnd, StripTrailingZeros, ParseNat;
    PaddedParses(units, decimals);
    var digits := Padded(units, decimals);
    var tail := digits[|digits| - decimals..];
    StripThenPad(tail);
    assert forall c :: c in Whole(units, decimals) ==> c in digits;
    assert forall c :: c in Fraction(units, decimals) ==> c in tail;
    assert forall c :: c in tail ==> c in digits;
    assert digits == digits[..|digits| - decimals] + tail;
  }

  /** Splitting a signed printed amount at its point gives the two fields back. */
  lemma SplitsPrinted(sign: string, whole: string, fraction: string)
    requires AllDigits(whole) && AllDigits(fraction) && '.' !in sign
    ensures SplitAtDot(sign + (whole + (if fraction != "" then "." + fraction else "")))
         == (sign + whole, fraction)
  {
    var a := sign + whole;
    assert '.' !in a;
    UntilDotOf(a, fraction);
    UntilDotOf(fraction, "");
    if fraction != "" {
      assert sign + (whole + ("." + fraction)) == a + "." + fraction;
      assert (a + "." + fraction)[|a| + 1..] == fraction;
    } else {
      assert sign + (whole + "") == a;
    }
  }

  lemma {:induction false} NothingToTrim(s: string)
    requires s != "" && !IsSpace(s[0]) && !IsSpace(s[|s| - 1])
    ensures TrimEnd(TrimStart(s)) == s
  {
  }

  lemma PrintedEnds(whole: string, fraction: string)
    requires AllDigits(whole) && AllDigits(fraction) && whole != ""
    ensures var s := whole + (if fraction != "" then "." + fraction else "");
            s != "" && !IsSpace(s[0]) && !IsSpace(s[|s| - 1])
  {
    assert whole[0] in whole && whole[|whole| - 1] in whole;
    if fraction != "" {
      assert fraction[|fraction| - 1] in fraction;
    }
  }

  lemma {:induction false} SignedParses(digits: string, units: nat)
    requires AllDigits(digits) && digits != "" && ParseNat(digits) == Some(units)
    ensures ParseInt(digits) == Some(units as int)
    ensures ParseInt("-" + digits) == Some(-(units as int))
  {
    assert digits[0] in digits;
    assert ("-" + digits)[1..] == digits;
  }

  /** Reading a printed amount joins the two fields and parses them with the sign. */
  lemma {:induction false} ReadsBack(sign: string, whole: string, fraction: string, digits: string, units: nat)
    requires sign == "" || sign == "-"
    requires AllDigits(whole) && AllDigits(fraction) && whole != "" && |fraction| <= SCALE
    requires whole + PadEnd(fraction, SCALE) == digits && AllDigits(digits) && ParseNat(digits) == Some(units)
    ensures ToUnits(sign + (whole + (if fraction != "" then "." + fraction else "")))
         == Some(if sign == "" then units as int else -(units as int))
  {
    hide SplitAtDot, ParseInt, ParseNat, TrimStart, TrimEnd, AllDigits, PadEnd;
    var body := whole + (if fraction != "" then "." + fraction else "");
    var s := sign + body;
    var joined := (sign + whole) + PadEnd(fraction, SCALE)[..SCALE];
    assert joined == sign + digits;
    assert TrimEnd(TrimStart(s)) == s by {
      PrintedEnds(whole, fraction);
      NothingToTrim(s);
    }
    assert ParseScaled(s) == ParseInt(joined) by {
      SplitsPrinted(sign, whole, fraction);
    }
    assert ParseInt(joined) == Some(if sign == "" then units as int else -(units as int)) by {
      SignedParses(digits, units);
      assert "" + digits == digits;
    }
  }

  /** Every integer amount survives printing and reading, negatives included. */
  lemma RoundTrip(units: int)
    ensures ToUnits(FromUnits(units)) == Some(units)
  {
    var magnitude: nat := if units < 0 then -units else units;
    FieldsRejoin(magnitude, SCALE);
    PaddedParses(magnitude, SCALE);
    ReadsBack(if units < 0 then "-" else "", Whole(magnitude, SCALE), Fraction(magnitude, SCALE),
              Padded(magnitude, SCALE), magnitude);
    assert "" + Unsigned(magnitude, SCALE) == Unsigned(magnitude, SCALE);
  }

  // Arithmetic on the strings.

  function Compare(left: string, right: string): Option<int> {
    match (ToUnits(left), ToUnits(right))
    case (Some(a), Some(b)) => Some(if a == b then 0 else if a < b then -1 else 1)
    case _ => None
  }

  function Negate(value: string): Option<string> {
    match ToUnits(value)
    case Some(a) => Some(FromUnits(-a))
    case None => None
  }

  function Multiply(value: string, factor: int): Option<string> {
    match ToUnits(value)
    case Some(a) => Some(FromUnits(a * factor))
    case None => None
  }

  function Subtract(left: string, right: string): Option<string> {
    match (ToUnits(left), ToUnits(right))
    case (Some(a), Some(b)) => Some(FromUnits(a - b))
    case _ => None
  }

  /** Division of big integers drops the remainder towards zero. */
  function Truncate(a: int, b: nat): int
    requires b > 0
  {
    if a >= 0 then a / b else -(-a / b)
  }

  function RakeUnits(pot: int, bps: int): int {
    Truncate(pot * bps, 10000)
  }

  function RakeOf(pot: string, bps: int): Option<string> {
    match ToUnits(pot)
    case Some(a) => Some(FromUnits(RakeUnits(a, bps)))
    case None => None
  }

  // What one helper writes, the next reads as the exact integer.

  ghost predicate Reads(s: Option<string>, units: int) {
    s.Some? && ToUnits(s.value) == Some(units)
  }

  lemma NegateReads(value: string, a: int)
    requires ToUnits(value) == Some(a)
    ensures Reads(Negate(value), -a)
  {
    RoundTrip(-a);
  }

  lemma MultiplyReads(value: string, a: int, factor: int)
    requires ToUnits(value) == Some(a)
    ensures Reads(Multiply(value, factor), a * factor)
  {
    RoundTrip(a * factor);
  }

  lemma SubtractReads(left: string, right: string, a: int, b: int)
    requires ToUnits(left) == Some(a) && ToUnits(right) == Some(b)
    ensures Reads(Subtract(left, right), a - b)
  {
    RoundTrip(a - b);
  }

  lemma RakeReads(pot: string, a: int, bps: int)
    requires ToUnits(pot) == Some(a)
    ensures Reads(RakeOf(pot, bps), RakeUnits(a, bps))
  {
    RoundTrip(RakeUnits(a, bps));
  }

  /** What settling computes on strings, pot, rake and payout, is what it means in units. */
  lemma PayOutReads(entry: string, a: nat, players: nat, bps: nat)
    requires ToUnits(entry) == Some(a)
    ensures Reads(Multiply(entry, players), a * players)
    ensures var pot := Multiply(entry, players).value; Reads(RakeOf(pot, bps), RakeUnits(a * players, bps))
    ensures var pot := Multiply(entry, players).value;
            Reads(Subtract(pot, RakeOf(pot, bps).value), a * players - RakeUnits(a * players, bps))
  {
    hide ToUnits, Multiply, RakeOf, Subtract, RakeUnits;
    MultiplyReads(entry, a, players);
    var pot := Multiply(entry, players).value;
    RakeReads(pot, a * players, bps);
    SubtractReads(pot, RakeOf(pot, bps).value, a * players, RakeUnits(a * players, bps));
  }

  /** Whether a balance covers an entry is decided by the units, however either is written. */
  lemma CompareReads(left: string, right: string, a: int, b: int)
    requires ToUnits(left) == Some(a) && ToUnits(right) == Some(b)
    ensures Compare(left, right).Some? && (Compare(left, right).value < 0 <==> a < b)
    ensures Compare(left, right) == Compare(FromUnits(a), FromUnits(b))
  {
    hide ToUnits, FromUnits;
    RoundTrip(a);
    RoundTrip(b);
  }

  /**
   * The rake of a pot is its rounded-down share. It is never negative, and it stays within the pot exactly
   * when the share is less than one unit above the pot, which any rate up to the whole guarantees.
   */
  lemma RakeWithinPot(pot: nat, bps: nat)
    ensures 0 <= RakeUnits(pot, bps)
    ensures RakeUnits(pot, bps) * 10000 <= pot * bps < (RakeUnits(pot, bps) + 1) * 10000
    ensures RakeUnits(pot, bps) <= pot <==> pot * bps < (pot + 1) * 10000
    ensures bps <= 10000 ==> RakeUnits(pot, bps) <= pot
  {
    assert pot * bps >= 0;
    if bps <= 10000 {
      assert pot * bps <= pot * 10000;
    }
  }

  // DepositWatcher's helpers: the same shapes without a sign, and a fee quantised to the asset.

  function FromBaseUnits(units: nat): string {
    Unsigned(units, USDC_DECIMALS)
  }

  function Unscale(units: nat): string {
    Unsigned(units, SCALE)
  }

  const STEP: nat := 1000000000000

  function FeeUnits(gross: nat, bps: nat): nat {
    gross * bps / 10000 / STEP * STEP
  }

  function BpsOf(amount: string, bps: nat): Option<string> {
    match ParseScaled(amount)
    case Some(a) => if a < 0 then None else Some(Unscale(FeeUnits(a, bps)))
    case None => None
  }

  function SubtractDecimal(left: string, right: string): Option<string> {
    match (ParseScaled(left), ParseScaled(right))
    case (Some(a), Some(b)) => if a < b then None else Some(Unscale(a - b))
    case _ => None
  }

  function Pow10(n: nat): nat {
    if n == 0 then 1 else 10 * Pow10(n - 1)
  }

  lemma PowerStep(value: nat, n: nat)
    requires n > 0
    ensures value * Pow10(n) == 10 * (value * Pow10(n - 1))
  {
    var p := Pow10(n - 1);
    assert value * (10 * p) == 10 * (value * p);
  }

  lemma NoPower(value: nat)
    ensures value * Pow10(0) == value
  {
  }

  lemma {:induction false} AppendZero(s: string, value: nat)
    requires AllDigits(s) && ParseNat(s) == Some(value)
    ensures AllDigits(s + "0") && ParseNat(s + "0") == Some(10 * value)
  {
    assert (s + "0")[..|s|] == s;
  }

  lemma {:induction false} TrailingZeros(s: string, value: nat, n: nat)
    requires AllDigits(s) && ParseNat(s) == Some(value)
    ensures AllDigits(s + Zeros(n)) && ParseNat(s + Zeros(n)) == Some(value * Pow10(n))
  {
    hide Pow10, ParseNat, AllDigits;
    if n == 0 {
      assert s + Zeros(0) == s;
      NoPower(value);
    } else {
      TrailingZeros(s, value, n - 1);
      var t := s + Zeros(n - 1);
      assert s + Zeros(n) == t + "0";
      AppendZero(t, value * Pow10(n - 1));
      PowerStep(value, n);
    }
  }

  lemma {:induction false} ReadsJoined(whole: string, fraction: string, digits: string, units: nat, decimals: nat)
    requires decimals <= SCALE && AllDigits(whole) && AllDigits(fraction) && whole != "" && |fraction| <= decimals
    requires whole + PadEnd(fraction, decimals) == digits && AllDigits(digits) && ParseNat(digits) == Some(units)
    ensures ParseScaled(whole + (if fraction != "" then "." + fraction else ""))
         == Some(units * Pow10(SCALE - decimals))
  {
    hide SplitAtDot, ParseInt, ParseNat, AllDigits, Pow10;
    var s := whole + (if fraction != "" then "." + fraction else "");
    var joined := whole + PadEnd(fraction, SCALE)[..SCALE];
    assert ParseScaled(s) == ParseInt(joined) by {
      SplitsPrinted("", whole, fraction);
      assert "" + s == s && "" + whole == whole;
    }
    assert joined == digits + Zeros(SCALE - decimals);
    assert ParseInt(joined) == Some(units * Pow10(SCALE - decimals)) by {
      TrailingZeros(digits, units, SCALE - decimals);
      SignedParses(joined, units * Pow10(SCALE - decimals));
    }
  }

  /** Printing at any precision up to the scale and reading at the scale multiplies by the missing zeros. */
  lemma {:induction false} ReadsScaled(units: nat, decimals: nat)
    requires decimals <= SCALE
    ensures ParseScaled(Unsigned(units, decimals)) == Some(units * Pow10(SCALE - decimals))
  {
    FieldsRejoin(units, decimals);
    PaddedParses(units, decimals);
    ReadsJoined(Whole(units, decimals), Fraction(units, decimals), Padded(units, decimals), units, decimals);
  }

  lemma StepIsPow10()
    ensures Pow10(12) == STEP
  {
    assert Pow10(6) == 1000000;
    assert Pow10(12) == 1000000 * Pow10(6);
  }

  /** The rounded-down part of a number of base units. */
  function Share(units: nat, bps: nat): (share: nat)
    ensures bps <= 10000 ==> share <= units
  {
    ShareWithin(units, bps);
    units * bps / 10000
  }

  lemma ShareWithin(units: nat, bps: nat)
    ensures bps <= 10000 ==> units * bps / 10000 <= units
  {
    if bps <= 10000 {
      assert units * bps <= units * 10000;
    }
  }

  /** Rounding at eighteen places and then at six is the same as rounding at six once. */
  lemma NestedRounding(units: nat, bps: nat)
    ensures FeeUnits(units * STEP, bps) == Share(units, bps) * STEP
  {
    var x := units * bps;
    var q, r := x / 10000, x % 10000;
    assert units * STEP * bps == x * STEP;
    assert x == 10000 * q + r;
    assert x * STEP == 10000 * (q * STEP) + r * STEP;
    assert r * STEP / 10000 < STEP;
    assert x * STEP / 10000 == q * STEP + r * STEP / 10000;
    assert (q * STEP + r * STEP / 10000) / STEP == q;
  }

  /** A whole number of base units prints the same at either precision. */
  lemma SamePrint(units: nat)
    ensures Unscale(units * STEP) == FromBaseUnits(units)
  {
    StepIsPow10();
    var small, big := Padded(units, 6), Padded(units * STEP, 18);
    assert big == small + Zeros(12) by {
      if units == 0 {
        assert Digits(0) == "0";
        assert big == Zeros(19) && small == Zeros(7);
      } else {
        ScaleDigits(units, 12);
      }
    }
    var tail := small[|small| - 6..];
    assert big[|big| - 18..] == tail + Zeros(12);
    StripMore(tail, 12);
    assert big[..|big| - 18] == small[..|small| - 6];
  }

  lemma {:induction false} StripMore(s: string, n: nat)
    ensures StripTrailingZeros(s + Zeros(n)) == StripTrailingZeros(s)
  {
    if n == 0 {
      assert s + Zeros(0) == s;
    } else {
      var t := s + Zeros(n - 1);
      assert s + Zeros(n) == t + "0";
      assert (t + "0")[..|t|] == t;
      StripMore(s, n - 1);
    }
  }

  lemma {:induction false} TenTimes(m: nat)
    requires m > 0
    ensures Digits(10 * m) == Digits(m) + "0"
  {
    assert 10 * m / 10 == m && 10 * m % 10 == 0;
  }

  lemma {:induction false} ScaleDigits(units: nat, n: nat)
    requires units > 0
    ensures units * Pow10(n) > 0 && Digits(units * Pow10(n)) == Digits(units) + Zeros(n)
  {
    hide Pow10, Digits;
    if n == 0 {
      NoPower(units);
      assert Digits(units) + Zeros(0) == Digits(units);
    } else {
      ScaleDigits(units, n - 1);
      var less := units * Pow10(n - 1);
      PowerStep(units, n);
      TenTimes(less);
      assert (Digits(units) + Zeros(n - 1)) + "0" == Digits(units) + Zeros(n);
    }
  }

  /**
   * For a deposit of any number of base units and any fee up to the whole: the quantised fee is exactly the
   * rounded-down share in base units, what is credited is the rest, and both are payable on chain.
   */
  lemma DepositFee(units: nat, bps: nat)
    requires bps <= 10000
    ensures var share := Share(units, bps);
            && share <= units && ParseScaled(FromBaseUnits(units)) == Some(units * STEP)
            && BpsOf(FromBaseUnits(units), bps) == Some(FromBaseUnits(share))
            && SubtractDecimal(FromBaseUnits(units), FromBaseUnits(share)) == Some(FromBaseUnits(units - share))
  {
    hide ParseScaled, FromBaseUnits, Unscale, FeeUnits, Share, Pow10;
    NestedRounding(units, bps);
    var share := Share(units, bps);
    ReadsBaseUnits(units);
    ReadsBaseUnits(share);
    SamePrint(share);
    SamePrint(units - share);
    assert (units - share) * STEP == units * STEP - share * STEP;
  }

  lemma ReadsBaseUnits(units: nat)
    ensures ParseScaled(FromBaseUnits(units)) == Some(units * STEP)
  {
    StepIsPow10();
    ReadsScaled(units, USDC_DECIMALS);
  }
}
