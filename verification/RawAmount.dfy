/** Decimal text and the atomic-amount printer of hooks/useOffpayWalletActivityStream.ts. */
module RawAmount {

  predicate IsDigit(c: char) {
    '0' <= c <= '9'
  }

  predicate AllDigits(s: string) {
    forall i :: 0 <= i < |s| ==> IsDigit(s[i])
  }

  /** `/^\d+$/` */
  predicate IsNumeral(s: string) {
    s != [] && AllDigits(s)
  }

  /** `BigInt(s)` of a numeral. */
  function Value(s: string): nat
    requires AllDigits(s)
  {
    if s == [] then 0 else 10 * Value(s[..|s| - 1]) + (s[|s| - 1] - '0') as nat
  }

  function Pow10(n: nat): (p: nat)
    ensures p > 0
  {
    if n == 0 then 1 else 10 * Pow10(n - 1)
  }

  function Digit(n: nat): char
    requires n < 10
  {
    '0' + n as char
  }

  /** `n.toString()` */
  function ToText(n: nat): (s: string)
    ensures IsNumeral(s) && Value(s) == n
    ensures s[0] == '0' ==> s == "0"
    decreases n
  {
    if n < 10 then
      assert Value([Digit(n)][..0]) == 0;
      [Digit(n)]
    else
      var s := ToText(n / 10);
      assert (s + [Digit(n % 10)])[..|s|] == s;
      s + [Digit(n % 10)]
  }

  function Zeros(n: nat): string {
    seq(n, _ => '0')
  }

  /** `s.padStart(width, '0')` */
  function PadStart(s: string, width: nat): string {
    if |s| >= width then s else Zeros(width - |s|) + s
  }

  /** `s.replace(/0+$/, '')` */
  function StripZeros(s: string): string {
    if s != [] && s[|s| - 1] == '0' then StripZeros(s[..|s| - 1]) else s
  }

  /** `null` for a text that is no numeral; `10n ** BigInt(decimals)` throws on a negative exponent. */
  datatype Printed = Text(text: string) | Null | RangeError

  function FormatRawAmount(rawAmount: string, decimals: int): Printed {
    if !IsNumeral(rawAmount) then Null
    else if decimals < 0 then RangeError
    else
      var scale := Pow10(decimals);
      var atomic := Value(rawAmount);
      var whole, fraction := atomic / scale, atomic % scale;
      if fraction == 0 then Text(ToText(whole))
      else Text(ToText(whole) + "." + StripZeros(PadStart(ToText(fraction), decimals)))
  }

  // ----- Reading a decimal back -------------------------------------------------------------------------------------

  /** A decimal read independently of the printer: its digits before and after the first point. */
  datatype Decimal = Decimal(whole: string, fraction: string)

  function Read(text: string): Decimal {
    if text == [] then Decimal("", "")
    else if text[0] == '.' then Decimal("", text[1..])
    else var rest := Read(text[1..]); Decimal([text[0]] + rest.whole, rest.fraction)
  }

  /** The number a decimal denotes, as a multiple of `10^-decimals`; it is whole because the fraction is short enough. */
  function Atoms(d: Decimal, decimals: nat): nat
    requires AllDigits(d.whole) && AllDigits(d.fraction) && |d.fraction| <= decimals
  {
    Value(d.whole) * Pow10(decimals) + Value(d.fraction) * Pow10(decimals - |d.fraction|)
  }

  /** No needless leading zero and no trailing fractional zero. */
  predicate Canonical(d: Decimal) {
    && IsNumeral(d.whole) && AllDigits(d.fraction)
    && (d.whole[0] == '0' ==> d.whole == "0")
    && (d.fraction != [] ==> d.fraction[|d.fraction| - 1] != '0')
  }

  function Print(d: Decimal): string {
    if d.fraction == [] then d.whole else d.whole + "." + d.fraction
  }

  lemma {:induction false} ReadPrinted(whole: string, fraction: string)
    requires AllDigits(whole)
    ensures Read(whole) == Decimal(whole, "")
    ensures Read(whole + "." + fraction) == Decimal(whole, fraction)
  {
    if whole == [] {
      assert whole + "." + fraction == "." + fraction;
    } else {
      var tail := whole[1..];
      ReadPrinted(tail, fraction);
      assert IsDigit(whole[0]) && whole == [whole[0]] + tail;
      assert whole + "." + fraction == [whole[0]] + (tail + "." + fraction);
    }
  }

  lemma {:induction false} Pow10Adds(a: nat, b: nat)
    ensures Pow10(a + b) == Pow10(a) * Pow10(b)
  {
    if a > 0 {
      Pow10Adds(a - 1, b);
      assert Pow10(a + b) == 10 * Pow10(a - 1 + b);
    }
  }

  lemma {:induction false} ZerosInFront(n: nat, s: string)
    requires AllDigits(s)
    ensures AllDigits(Zeros(n) + s) && Value(Zeros(n) + s) == Value(s)
  {
    if s == [] {
      assert Zeros(n) + s == Zeros(n);
      if n > 0 {
        ZerosInFront(n - 1, s);
        assert Zeros(n)[..n - 1] == Zeros(n - 1) == Zeros(n - 1) + s;
      }
    } else {
      ZerosInFront(n, s[..|s| - 1]);
      assert (Zeros(n) + s)[..|Zeros(n) + s| - 1] == Zeros(n) + s[..|s| - 1];
    }
  }

  lemma MulTen(a: nat, b: nat)
    ensures 10 * (a * b) == a * (10 * b)
  {
  }

  lemma {:induction false} StrippedZeros(s: string)
    requires AllDigits(s)
    ensures var t := StripZeros(s);
            && t <= s && AllDigits(t)
            && Value(s) == Value(t) * Pow10(|s| - |t|)
            && (t != [] ==> t[|t| - 1] != '0')
  {
    if s != [] && s[|s| - 1] == '0' {
      StrippedZeros(s[..|s| - 1]);
      var t := StripZeros(s);
      MulTen(Value(t), Pow10(|s| - 1 - |t|));
    }
  }

  /** A numeral without leading zeros is at least the power of ten its length names. */
  lemma {:induction false} LengthBounds(s: string)
    requires IsNumeral(s) && s[0] != '0'
    ensures Value(s) >= Pow10(|s| - 1)
  {
    if |s| > 1 {
      LengthBounds(s[..|s| - 1]);
    } else {
      assert s[..0] == [];
    }
  }

  lemma {:induction false} Pow10Grows(a: nat, b: nat)
    requires a <= b
    ensures Pow10(a) <= Pow10(b)
  {
    if a < b { Pow10Grows(a, b - 1); }
  }

  /** The padded fraction has exactly `decimals` digits and keeps its value. */
  lemma PaddedFraction(fraction: nat, decimals: nat)
    requires 0 < fraction < Pow10(decimals)
    ensures var padded := PadStart(ToText(fraction), decimals);
            |padded| == decimals && AllDigits(padded) && Value(padded) == fraction
  {
    var s := ToText(fraction);
    LengthBounds(s);
    if |s| > decimals { Pow10Grows(decimals, |s| - 1); }
    ZerosInFront(decimals - |s|, s);
  }

  lemma PositiveIsWritten(s: string, scale: nat)
    requires AllDigits(s) && Value(s) * scale > 0
    ensures s != []
  {
  }

  /** The fraction as printed: its digits without the trailing zeros. */
  lemma StrippedFraction(fraction: nat, decimals: nat)
    requires 0 < fraction < Pow10(decimals)
    ensures var f := StripZeros(PadStart(ToText(fraction), decimals));
            && AllDigits(f) && f != [] && |f| <= decimals && f[|f| - 1] != '0'
            && Value(f) * Pow10(decimals - |f|) == fraction
  {
    var padded := PadStart(ToText(fraction), decimals);
    PaddedFraction(fraction, decimals);
    StrippedZeros(padded);
    hide ToText, PadStart, StripZeros, Value, Pow10;
    PositiveIsWritten(StripZeros(padded), Pow10(decimals - |StripZeros(padded)|));
  }

  lemma PrintsFraction(whole: nat, fraction: nat, decimals: nat)
    requires 0 < fraction < Pow10(decimals)
    ensures var f := StripZeros(PadStart(ToText(fraction), decimals));
            var d := Decimal(ToText(whole), f);
            && Read(ToText(whole) + "." + f) == d && f != [] && Canonical(d) && |f| <= decimals
            && Atoms(d, decimals) == whole * Pow10(decimals) + fraction
  {
    var w, f := ToText(whole), StripZeros(PadStart(ToText(fraction), decimals));
    StrippedFraction(fraction, decimals);
    hide ToText, PadStart, StripZeros, Value, Pow10;
    ReadPrinted(w, f);
    AtomsOfParts(w, f, whole, fraction, decimals);
    hide Read, Atoms;
  }

  lemma AtomsOfParts(w: string, f: string, whole: nat, fraction: nat, decimals: nat)
    requires AllDigits(w) && AllDigits(f) && |f| <= decimals
    requires Value(w) == whole && Value(f) * Pow10(decimals - |f|) == fraction
    ensures Atoms(Decimal(w, f), decimals) == whole * Pow10(decimals) + fraction
  {
    hide Value, Pow10;
  }

  /** The printed decimal is exact and canonical: it denotes `rawAmount / 10^decimals`. */
  lemma {:induction false} PrintsExactly(rawAmount: string, decimals: nat)
    requires IsNumeral(rawAmount)
    ensures var printed := FormatRawAmount(rawAmount, decimals);
            && printed.Text?
            && var d := Read(printed.text);
            && Canonical(d) && printed.text == Print(d)
            && |d.fraction| <= decimals
            && Atoms(d, decimals) == Value(rawAmount)
  {
    var whole, fraction := Value(rawAmount) / Pow10(decimals), Value(rawAmount) % Pow10(decimals);
    QuotientAndRest(Value(rawAmount), Pow10(decimals));
    if fraction == 0 { PrintsWhole(whole, decimals); } else { PrintsFraction(whole, fraction, decimals); }
    hide ToText, Pow10, PadStart, StripZeros, Read, Canonical, Print, Value, Atoms;
  }

  lemma QuotientAndRest(a: nat, b: nat)
    requires b > 0
    ensures a == a / b * b + a % b && 0 <= a % b < b
  {
  }

  lemma PrintsWhole(whole: nat, decimals: nat)
    ensures var d := Decimal(ToText(whole), "");
            Read(ToText(whole)) == d && Canonical(d) && Atoms(d, decimals) == whole * Pow10(decimals)
  {
    ReadPrinted(ToText(whole), "");
  }

  /** The printer answers `null` exactly on texts that are no numerals, and throws exactly on negative decimals. */
  lemma PrintsOnlyNumerals(rawAmount: string, decimals: int)
    ensures FormatRawAmount(rawAmount, decimals) == Null <==> !IsNumeral(rawAmount)
    ensures FormatRawAmount(rawAmount, decimals) == RangeError <==> IsNumeral(rawAmount) && decimals < 0
  {
  }

  /** At the same decimals two numerals print alike exactly when they are the same integer. */
  lemma {:induction false} PrintsAlikeIffEqual(a: string, b: string, decimals: nat)
    requires IsNumeral(a) && IsNumeral(b)
    ensures FormatRawAmount(a, decimals) == FormatRawAmount(b, decimals) <==> Value(a) == Value(b)
  {
    PrintsExactly(a, decimals);
    PrintsExactly(b, decimals);
  }

  /** A numeral is determined by its value up to leading zeros. */
  lemma {:induction false} NumeralIsUnique(s: string)
    requires IsNumeral(s) && (s[0] == '0' ==> s == "0")
    ensures s == ToText(Value(s))
  {
    var init := s[..|s| - 1];
    if |s| == 1 {
      assert init == [];
    } else {
      NumeralIsUnique(init);
      LengthBounds(init);
      assert Value(s) == 10 * Value(init) + (s[|s| - 1] - '0') as nat;
      assert Value(s) / 10 == Value(init) && Value(s) >= 10;
      assert s == init + [s[|s| - 1]];
      hide Value, Pow10;
    }
  }

  /** Printing inverts reading: every canonical decimal that fits is the print of the integer it denotes. */
  lemma ReprintsCanonical(d: Decimal, decimals: nat)
    requires Canonical(d) && |d.fraction| <= decimals
    ensures FormatRawAmount(ToText(Atoms(d, decimals)), decimals) == Text(Print(d))
  {
    var raw := ToText(Atoms(d, decimals));
    PrintsExactly(raw, decimals);
    var e := Read(FormatRawAmount(raw, decimals).text);
    CanonicalIsUnique(d, e, decimals);
  }

  lemma {:induction false} FractionBelowOne(s: string)
    requires AllDigits(s)
    ensures Value(s) < Pow10(|s|)
  {
    if s != [] { FractionBelowOne(s[..|s| - 1]); }
  }

  /** Digit strings of the same length are determined by their value. */
  lemma {:induction false} SameLengthSameText(s: string, t: string)
    requires AllDigits(s) && AllDigits(t) && |s| == |t| && Value(s) == Value(t)
    ensures s == t
  {
    if s != [] {
      var s', t' := s[..|s| - 1], t[..|t| - 1];
      SameLengthSameText(s', t');
      assert s == s' + [s[|s| - 1]] && t == t' + [t[|t| - 1]];
    }
  }

  lemma {:induction false} ZerosBehind(s: string, n: nat)
    requires AllDigits(s)
    ensures AllDigits(s + Zeros(n)) && Value(s + Zeros(n)) == Value(s) * Pow10(n)
  {
    if n == 0 {
      assert s + Zeros(0) == s;
    } else {
      ZerosBehind(s, n - 1);
      AppendZero(s + Zeros(n - 1));
      MulTen(Value(s), Pow10(n - 1));
      hide Value;
      assert s + Zeros(n) == s + Zeros(n - 1) + "0";
    }
  }

  lemma AppendZero(s: string)
    requires AllDigits(s)
    ensures AllDigits(s + "0") && Value(s + "0") == 10 * Value(s)
  {
    assert (s + "0")[..|s|] == s;
  }

  lemma ScaledFraction(d: Decimal, decimals: nat)
    requires Canonical(d) && |d.fraction| <= decimals
    ensures Value(d.fraction) * Pow10(decimals - |d.fraction|) < Pow10(decimals)
    ensures var f := d.fraction + Zeros(decimals - |d.fraction|);
            AllDigits(f) && |f| == decimals && Value(f) == Value(d.fraction) * Pow10(decimals - |d.fraction|)
  {
    ZerosBehind(d.fraction, decimals - |d.fraction|);
    FractionBelowOne(d.fraction + Zeros(decimals - |d.fraction|));
  }

  /** Canonical decimals that denote the same number are the same text. */
  lemma CanonicalIsUnique(d: Decimal, e: Decimal, decimals: nat)
    requires Canonical(d) && Canonical(e) && |d.fraction| <= decimals && |e.fraction| <= decimals
    requires Atoms(d, decimals) == Atoms(e, decimals)
    ensures d == e
  {
    ScaledFraction(d, decimals);
    ScaledFraction(e, decimals);
    var p := Pow10(decimals);
    var fd, fe := Value(d.fraction) * Pow10(decimals - |d.fraction|), Value(e.fraction) * Pow10(decimals - |e.fraction|);
    hide Value, Pow10, Zeros;
    QuotientIsUnique(Value(d.whole), fd, Value(e.whole), fe, p);
    NumeralIsUnique(d.whole);
    NumeralIsUnique(e.whole);
    SameFractions(d, e, decimals);
  }

  lemma SameFractions(d: Decimal, e: Decimal, decimals: nat)
    requires Canonical(d) && Canonical(e) && |d.fraction| <= decimals && |e.fraction| <= decimals
    requires Value(d.fraction) * Pow10(decimals - |d.fraction|) == Value(e.fraction) * Pow10(decimals - |e.fraction|)
    ensures d.fraction == e.fraction
  {
    ScaledFraction(d, decimals);
    ScaledFraction(e, decimals);
    hide Value, Pow10;
    var padD, padE := d.fraction + Zeros(decimals - |d.fraction|), e.fraction + Zeros(decimals - |e.fraction|);
    SameLengthSameText(padD, padE);
    SameStripped(d.fraction, e.fraction, padD);
  }

  lemma ProductGrows(a: nat, b: nat, p: nat)
    requires a < b
    ensures b * p >= a * p + p
  {
    assert b * p == (a + 1) * p + (b - a - 1) * p;
  }

  lemma QuotientIsUnique(q: nat, r: nat, q': nat, r': nat, p: nat)
    requires r < p && r' < p && q * p + r == q' * p + r'
    ensures q == q' && r == r'
  {
    if q < q' {
      ProductGrows(q, q', p);
    } else if q' < q {
      ProductGrows(q', q, p);
    }
  }

  lemma SameStripped(s: string, t: string, padded: string)
    requires s <= padded && t <= padded
    requires s != [] ==> s[|s| - 1] != '0'
    requires t != [] ==> t[|t| - 1] != '0'
    requires forall i :: |s| <= i < |padded| ==> padded[i] == '0'
    requires forall i :: |t| <= i < |padded| ==> padded[i] == '0'
    ensures s == t
  {
    assert t != [] ==> t[|t| - 1] == padded[|t| - 1];
    assert s != [] ==> s[|s| - 1] == padded[|s| - 1];
  }
}
