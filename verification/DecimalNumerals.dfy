/** Amounts are read and printed as ordinary decimal numerals: sign, digits, a point, and up to eighteen decimals. */
module DecimalNumerals {
  import opened Prelude
  import opened Strings
  import opened Decimals
  import PaymentStatuses

  ghost predicate Numeric(s: string) {
    forall i :: 0 <= i < |s| ==> '0' <= s[i] <= '9'
  }

  /** What a row of digits counts. */
  ghost function Count(s: string): nat
    requires Numeric(s)
  {
    if s == "" then 0 else Count(s[..|s| - 1]) * 10 + (s[|s| - 1] as int - '0' as int)
  }

  ghost function Ten(n: nat): nat {
    if n == 0 then 1 else 10 * Ten(n - 1)
  }

  /** In units of 10^-18: the digits before the point, and those after it, each worth a tenth of the one before. */
  ghost function Worth(whole: string, decimals: string): int
    requires Numeric(whole) && Numeric(decimals) && |decimals| <= 18
  {
    Count(whole) * Ten(18) + Count(decimals) * Ten(18 - |decimals|)
  }

  ghost function Written(sign: string, whole: string, decimals: string): string {
    sign + whole + if decimals == "" then "" else "." + decimals
  }

  // Rows of digits.

  lemma {:induction false} CountAppend(a: string, b: string)
    requires Numeric(a) && Numeric(b)
    ensures Numeric(a + b) && Count(a + b) == Count(a) * Ten(|b|) + Count(b)
  {
    hide Ten, Count;
    if b == "" {
      assert a + b == a;
      NoPlaces(Count(a));
      CountStep("", a);
    } else {
      var init, last := b[..|b| - 1], b[|b| - 1];
      CountAppend(a, init);
      assert (a + b)[..|a + b| - 1] == a + init;
      CountStep(a + b, b);
      OnePlace(Count(a), |init|);
    }
  }

  lemma {:induction false} CountStep(s: string, t: string)
    requires Numeric(s) && Numeric(t)
    ensures Count("") == 0
    ensures s != "" ==> Count(s) == Count(s[..|s| - 1]) * 10 + (s[|s| - 1] as int - '0' as int)
    ensures t != "" ==> Count(t) == Count(t[..|t| - 1]) * 10 + (t[|t| - 1] as int - '0' as int)
  {
  }

  lemma NoPlaces(x: int)
    ensures x * Ten(0) == x
  {
  }

  lemma OnePlace(x: int, n: nat)
    ensures x * Ten(n + 1) == 10 * (x * Ten(n))
  {
    var y := Ten(n);
    assert x * (10 * y) == 10 * (x * y);
  }

  lemma {:induction false} CountZeros(n: nat)
    ensures Numeric(Zeros(n)) && Count(Zeros(n)) == 0
  {
    if n > 0 {
      CountZeros(n - 1);
      assert Zeros(n)[..n - 1] == Zeros(n - 1);
    }
  }

  lemma {:induction false} ParsedCount(s: string)
    requires Numeric(s)
    ensures AllDigits(s) && ParseNat(s) == Some(Count(s))
  {
    if s != "" {
      ParsedCount(s[..|s| - 1]);
      assert s == s[..|s| - 1] + [s[|s| - 1]];
    }
  }

  /** The digits on both sides of the point, the right side filled up to eighteen, count the units. */
  lemma {:induction false} JoinedWorth(whole: string, decimals: string)
    requires Numeric(whole) && Numeric(decimals) && |decimals| <= 18
    ensures Numeric(whole + PadEnd(decimals, 18)) && Count(whole + PadEnd(decimals, 18)) == Worth(whole, decimals)
  {
    var k := 18 - |decimals|;
    assert PadEnd(decimals, 18) == decimals + Zeros(k);
    CountZeros(k);
    CountAppend(decimals, Zeros(k));
    CountAppend(whole, PadEnd(decimals, 18));
  }

  // Reading.

  /** The first eighteen decimals; further ones are cut off. */
  function Kept(decimals: string): string {
    if |decimals| <= 18 then decimals else decimals[..18]
  }

  /** A decimal numeral, with or without a sign, decimals and white space around it, reads as what it is worth. */
  lemma {:induction false} NumeralReads(before: string, sign: string, whole: string, decimals: string, after: string)
    requires (forall i :: 0 <= i < |before| ==> IsSpace(before[i])) && (forall i :: 0 <= i < |after| ==> IsSpace(after[i]))
    requires (sign == "" || sign == "-") && Numeric(whole) && whole != "" && Numeric(decimals)
    ensures ToUnits(before + Written(sign, whole, decimals) + after) ==
            Some(if sign == "-" then -Worth(whole, Kept(decimals)) else Worth(whole, Kept(decimals)))
  {
    hide ParseScaled, IsSpace, TrimStart, TrimEnd, Numeric;
    var core := Written(sign, whole, decimals);
    Untrimmed(before, sign, whole, decimals, after);
    ScaledReads(sign, whole, decimals);
  }

  lemma {:induction false} Untrimmed(before: string, sign: string, whole: string, decimals: string, after: string)
    requires (forall i :: 0 <= i < |before| ==> IsSpace(before[i])) && (forall i :: 0 <= i < |after| ==> IsSpace(after[i]))
    requires (sign == "" || sign == "-") && Numeric(whole) && whole != "" && Numeric(decimals)
    ensures var core := Written(sign, whole, decimals); TrimEnd(TrimStart(before + core + after)) == core
  {
    hide TrimStart, TrimEnd, IsSpace, Written;
    var core := Written(sign, whole, decimals);
    assert before + core + after == before + (core + after);
    PaymentStatuses.LeadingSpace(before, core + after);
    PaymentStatuses.TrimmedPadding(core, after);
    NumeralEnds(sign, whole, decimals);
    NothingToTrim(core);
  }

  lemma NumeralEnds(sign: string, whole: string, decimals: string)
    requires (sign == "" || sign == "-") && Numeric(whole) && whole != "" && Numeric(decimals)
    ensures var core := Written(sign, whole, decimals); core != "" && !IsSpace(core[0]) && !IsSpace(core[|core| - 1])
  {
    hide IsSpace;
    var core := Written(sign, whole, decimals);
    assert core[0] == '-' || core[0] == whole[0];
    assert core[|core| - 1] == if decimals == "" then whole[|whole| - 1] else decimals[|decimals| - 1];
    NoSpace(core[0]);
    NoSpace(core[|core| - 1]);
  }

  lemma NoSpace(c: char)
    ensures '0' <= c <= '9' || c == '-' ==> !IsSpace(c)
  {
  }

  lemma {:induction false} ScaledReads(sign: string, whole: string, decimals: string)
    requires (sign == "" || sign == "-") && Numeric(whole) && whole != "" && Numeric(decimals)
    ensures Numeric(Kept(decimals))
    ensures ParseScaled(Written(sign, whole, decimals)) ==
            Some(if sign == "-" then -Worth(whole, Kept(decimals)) else Worth(whole, Kept(decimals)))
  {
    hide SplitAtDot, ParseInt, ParseNat, AllDigits, Count, Worth, PadEnd, Numeric;
    var kept := Kept(decimals);
    KeptNumeric(decimals);
    NumeralSplits(sign, whole, decimals);
    JoinedWorth(whole, kept);
    var digits := whole + PadEnd(kept, 18);
    ParsedCount(digits);
    SignedParses(digits, Count(digits));
    PaddedKept(decimals);
    assert (sign + whole) + PadEnd(kept, 18) == sign + digits;
    assert "" + digits == digits;
  }

  lemma NumeralSplits(sign: string, whole: string, decimals: string)
    requires (sign == "" || sign == "-") && Numeric(whole) && Numeric(decimals)
    ensures SplitAtDot(Written(sign, whole, decimals)) == (sign + whole, decimals)
  {
    hide SplitAtDot, Numeric;
    ParsedCount(whole);
    ParsedCount(decimals);
    SplitsPrinted(sign, whole, decimals);
    assert Written(sign, whole, decimals) == sign + (whole + (if decimals != "" then "." + decimals else ""));
  }

  lemma KeptNumeric(decimals: string)
    requires Numeric(decimals)
    ensures Numeric(Kept(decimals))
  {
  }

  lemma PaddedKept(decimals: string)
    ensures PadEnd(decimals, 18)[..18] == PadEnd(Kept(decimals), 18)
  {
  }

  // Printing.

  /** No digit more than needed: no leading zero but a lone one, and no trailing zero after the point. */
  ghost predicate Shortest(whole: string, decimals: string) {
    && whole != "" && (|whole| > 1 ==> whole[0] != '0')
    && |decimals| <= 18 && (decimals != "" ==> decimals[|decimals| - 1] != '0')
  }

  /** An amount prints as the shortest numeral of its worth. */
  lemma {:induction false} PrintedMeans(units: int)
    ensures exists whole, decimals ::
              && Numeric(whole) && Numeric(decimals) && Shortest(whole, decimals)
              && FromUnits(units) == Written(if units < 0 then "-" else "", whole, decimals)
              && Worth(whole, decimals) == if units < 0 then -units else units
  {
    hide Numeric, Shortest, Worth, Written, FromUnits, Whole, Fraction;
    var magnitude: nat := if units < 0 then -units else units;
    FieldsWorth(magnitude);
    PrintedShortest(magnitude);
    PrintedWritten(units);
  }

  lemma PrintedWritten(units: int)
    ensures var magnitude: nat := if units < 0 then -units else units;
            FromUnits(units) ==
              Written(if units < 0 then "-" else "", Whole(magnitude, SCALE), Fraction(magnitude, SCALE))
  {
    hide Whole, Fraction;
  }

  lemma {:induction false} FieldsWorth(units: nat)
    ensures Numeric(Whole(units, SCALE)) && Numeric(Fraction(units, SCALE)) && |Fraction(units, SCALE)| <= 18
    ensures Worth(Whole(units, SCALE), Fraction(units, SCALE)) == units
  {
    hide Whole, Fraction, Padded, Worth, Count, PadEnd, Numeric, AllDigits, ParseNat;
    var whole, decimals := Whole(units, SCALE), Fraction(units, SCALE);
    FieldsRejoin(units, SCALE);
    PaddedParses(units, SCALE);
    DigitsAreNumeric(whole);
    DigitsAreNumeric(decimals);
    JoinedWorth(whole, decimals);
    ParsedCount(whole + PadEnd(decimals, 18));
  }

  lemma DigitsAreNumeric(s: string)
    requires AllDigits(s)
    ensures Numeric(s)
  {
    forall i | 0 <= i < |s| ensures '0' <= s[i] <= '9' {
      assert s[i] in s;
    }
  }

  lemma {:induction false} PrintedShortest(units: nat)
    ensures Shortest(Whole(units, SCALE), Fraction(units, SCALE))
  {
    hide Digits, StripTrailingZeros;
    var digits := Padded(units, SCALE);
    var tail := digits[|digits| - SCALE..];
    StripThenPad(tail);
    StrippedEnd(tail);
    if |Digits(units)| > SCALE + 1 {
      LeadingDigit(units);
    }
  }

  lemma {:induction false} StrippedEnd(s: string)
    ensures var r := StripTrailingZeros(s); r != "" ==> r[|r| - 1] != '0'
  {
    if s != "" && s[|s| - 1] == '0' {
      StrippedEnd(s[..|s| - 1]);
    }
  }

  lemma {:induction false} LeadingDigit(n: nat)
    ensures Digits(n) != "" && (|Digits(n)| > 1 ==> Digits(n)[0] != '0')
    ensures n > 0 ==> Digits(n)[0] != '0'
  {
    if n >= 10 {
      LeadingDigit(n / 10);
    }
  }
}
