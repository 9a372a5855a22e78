/**
 * Base-10 parsing as done by Go's big.Int.SetString(s, 10): an optional
 * single '+' or '-', then one or more ASCII digits, and nothing after them.
 * Base 10 admits no "0x"-style prefix and no '_' separators; leading zeros
 * are allowed and "-0" is zero.
 */
module Decimal {
  import opened Wrappers

  predicate IsDigit(c: char) { '0' <= c <= '9' }

  predicate AllDigits(s: string) { forall i :: 0 <= i < |s| ==> IsDigit(s[i]) }

  function DigitValue(c: char): nat
    requires IsDigit(c)
  {
    c as int - '0' as int
  }

  function DigitChar(d: nat): char
    requires d < 10
  {
    ('0' as int + d) as char
  }

  function Pow10(n: nat): (p: nat)
    ensures p >= 1
  {
    if n == 0 then 1 else 10 * Pow10(n - 1)
  }

  /** Reference value of a digit string, read from its last digit. */
  function DigitsValue(s: string): nat
    requires AllDigits(s)
  {
    if s == [] then 0 else 10 * DigitsValue(s[..|s| - 1]) + DigitValue(s[|s| - 1])
  }

  predicate HasSign(s: string) { |s| > 0 && (s[0] == '+' || s[0] == '-') }

  /** The grammar accepted by SetString(s, 10): [+-]?[0-9]+ */
  predicate IsDecimal(s: string) {
    var digits := if HasSign(s) then s[1..] else s;
    |digits| > 0 && AllDigits(digits)
  }

  /** Reference value of a well-formed decimal string. */
  function DecimalValue(s: string): int
    requires IsDecimal(s)
  {
    if HasSign(s) then
      (if s[0] == '-' then -(DigitsValue(s[1..]) as int) else DigitsValue(s[1..]))
    else DigitsValue(s)
  }

  /** A leading digit contributes its value times the weight of its position. */
  lemma {:induction false} DigitsValueCons(s: string)
    requires |s| > 0 && AllDigits(s)
    ensures DigitsValue(s) == DigitValue(s[0]) * Pow10(|s| - 1) + DigitsValue(s[1..])
  {
    if |s| > 1 {
      var init, tail := s[..|s| - 1], s[1..];
      DigitsValueCons(init);
      assert init[1..] == tail[..|tail| - 1];
      assert tail[|tail| - 1] == s[|s| - 1];
      ShiftStep(DigitValue(s[0]), Pow10(|s| - 2), DigitsValue(init[1..]), DigitValue(s[|s| - 1]));
    } else {
      assert s[..|s| - 1] == [];
      assert s[1..] == [];
    }
  }

  /** The arithmetic of appending a digit to a number with a leading digit. */
  lemma ShiftStep(d: nat, p: nat, rest: nat, last: nat)
    ensures 10 * (d * p + rest) + last == d * (10 * p) + (10 * rest + last)
  {
  }

  /**
   * The left-to-right digit scan: each digit multiplies the accumulator by
   * ten and adds its value. Fails on the first non-digit.
   */
  function ScanDigits(s: string, acc: nat): (r: Option<nat>)
    ensures r.Some? <==> AllDigits(s)
    ensures r.Some? ==> r.value == acc * Pow10(|s|) + DigitsValue(s)
  {
    if s == [] then Some(acc)
    else if !IsDigit(s[0]) then None
    else
      var rest := ScanDigits(s[1..], 10 * acc + DigitValue(s[0]));
      assert AllDigits(s) <==> AllDigits(s[1..]) by {
        assert forall i :: 0 < i < |s| ==> s[i] == s[1..][i - 1];
      }
      if rest.Some? then
        DigitsValueCons(s);
        ScanStep(acc, DigitValue(s[0]), Pow10(|s| - 1), DigitsValue(s[1..]));
        rest
      else rest
  }

  /** The arithmetic of one scan step. */
  lemma ScanStep(acc: nat, d: nat, p: nat, tail: nat)
    ensures (10 * acc + d) * p + tail == acc * (10 * p) + (d * p + tail)
  {
  }

  /** big.Int.SetString(s, 10), giving None where SetString reports failure. */
  function ParseDecimal(s: string): (r: Option<int>)
    ensures r.Some? <==> IsDecimal(s)
    ensures r.Some? ==> r.value == DecimalValue(s)
  {
    var negative := |s| > 0 && s[0] == '-';
    var digits := if |s| > 0 && (s[0] == '+' || s[0] == '-') then s[1..] else s;
    if digits == [] then None
    else
      match ScanDigits(digits, 0)
      case None => None
      case Some(m) => Some(if negative then -(m as int) else m)
  }

  /** Canonical base-10 text of a natural number (big.Int.String for n >= 0). */
  function FormatNat(n: nat): string
  {
    if n < 10 then [DigitChar(n)] else FormatNat(n / 10) + [DigitChar(n % 10)]
  }

  /** Canonical base-10 text of an integer (big.Int.String). */
  function FormatInt(i: int): string
  {
    if i < 0 then "-" + FormatNat(-i) else FormatNat(i)
  }

  lemma {:induction false} FormatNatDigits(n: nat)
    ensures |FormatNat(n)| > 0 && AllDigits(FormatNat(n))
    ensures FormatNat(n)[0] != '+' && FormatNat(n)[0] != '-'
    ensures DigitsValue(FormatNat(n)) == n
  {
    if n >= 10 {
      FormatNatDigits(n / 10);
      var s := FormatNat(n);
      assert s[..|s| - 1] == FormatNat(n / 10);
    }
  }

  /** Parsing the canonical text of any integer gives that integer back. */
  lemma {:induction false} ParseFormatRoundTrip(i: int)
    ensures ParseDecimal(FormatInt(i)) == Some(i)
  {
    if i < 0 {
      FormatNatDigits(-i);
      assert ("-" + FormatNat(-i))[1..] == FormatNat(-i);
    } else {
      FormatNatDigits(i);
    }
  }

  /** k zero digits. */
  function Zeros(k: nat): string { seq(k, _ => '0') }

  /** The canonical text of 10^k is a one followed by k zeros. */
  lemma {:induction false} FormatPow10(k: nat)
    ensures FormatNat(Pow10(k)) == "1" + Zeros(k)
  {
    if k > 0 {
      FormatPow10(k - 1);
      assert Zeros(k) == Zeros(k - 1) + ['0'];
    }
  }

  /** A '+' in front of an unsigned decimal string does not change the parse. */
  lemma PlusSignIsNeutral(s: string)
    requires !HasSign(s)
    ensures ParseDecimal("+" + s) == ParseDecimal(s)
  {
    assert ("+" + s)[1..] == s;
  }

  /** A '-' in front of an unsigned decimal string negates the parse. */
  lemma MinusSignNegates(s: string)
    requires !HasSign(s) && IsDecimal(s)
    ensures ParseDecimal("-" + s) == Some(-DecimalValue(s))
  {
    assert ("-" + s)[1..] == s;
  }
}
