/** Decimal text of a natural number, as String(n) prints it, and parseInt on such text. */
module Decimals {
  import opened RaftTypes

  function Digit(d: nat): (c: char)
    requires d < 10
    ensures IsDigit(c) && DigitValue(c) == d
  {
    "0123456789"[d]
  }

  predicate IsDigit(c: char) {
    '0' <= c <= '9'
  }

  function DigitValue(c: char): (d: nat)
    requires IsDigit(c)
    ensures d < 10
  {
    (c - '0') as int
  }

  function Decimal(n: nat): (text: string)
    ensures |text| > 0 && forall i :: 0 <= i < |text| ==> IsDigit(text[i])
  {
    if n < 10 then [Digit(n)] else Decimal(n / 10) + [Digit(n % 10)]
  }

  /** The value of a run of digits. */
  function Value(text: string): nat
    requires forall i :: 0 <= i < |text| ==> IsDigit(text[i])
  {
    if text == [] then 0 else 10 * Value(text[..|text| - 1]) + DigitValue(text[|text| - 1])
  }

  lemma {:induction false} ValueOfDecimal(n: nat)
    ensures Value(Decimal(n)) == n
  {
    var text := Decimal(n);
    if n < 10 {
      assert text[..0] == "";
    } else {
      assert text[..|text| - 1] == Decimal(n / 10);
      ValueOfDecimal(n / 10);
    }
  }

  lemma DecimalInjective(m: nat, n: nat)
    requires Decimal(m) == Decimal(n)
    ensures m == n
  {
    ValueOfDecimal(m);
    ValueOfDecimal(n);
  }

  /** String(i) of an integer. */
  function IntText(i: int): (text: string)
    ensures |text| > 0 && forall k :: 0 <= k < |text| ==> IsDigit(text[k]) || text[k] == '-'
  {
    if i >= 0 then Decimal(i) else "-" + Decimal(-i)
  }

  /** The digits text starts with. */
  function LeadingDigits(text: string): (d: string)
    ensures forall i :: 0 <= i < |d| ==> IsDigit(d[i])
  {
    if text == "" || !IsDigit(text[0]) then "" else [text[0]] + LeadingDigits(text[1..])
  }

  /** parseInt: a sign and the digits that follow, NaN (None) when there are none. Leading
      white space and the 0x form do not occur in what the program prints. */
  function ParseInt(text: string): Option<int> {
    var negative := text != "" && text[0] == '-';
    var digits := LeadingDigits(if negative then text[1..] else text);
    var value: int := Value(digits);
    if digits == "" then None else Some(if negative then -value else value)
  }

  lemma {:induction false} AllLeadingDigits(text: string)
    requires forall i :: 0 <= i < |text| ==> IsDigit(text[i])
    ensures LeadingDigits(text) == text
  {
    if text != "" {
      AllLeadingDigits(text[1..]);
      assert text == [text[0]] + text[1..];
    }
  }

  lemma ParseDecimal(n: nat)
    ensures ParseInt(Decimal(n)) == Some(n)
  {
    AllLeadingDigits(Decimal(n));
    ValueOfDecimal(n);
  }

  /** Every integer parses back from its text. */
  lemma ParseIntText(i: int)
    ensures ParseInt(IntText(i)) == Some(i)
  {
    if i >= 0 {
      ParseDecimal(i);
    } else {
      ParseNegative(-i);
    }
  }

  lemma ParseNegative(n: int)
    requires n >= 0
    ensures ParseInt("-" + Decimal(n)) == Some(-n)
  {
    hide Decimal, LeadingDigits, Value;
    var text := "-" + Decimal(n);
    assert text[0] == '-' && text[1..] == Decimal(n);
    AllLeadingDigits(Decimal(n));
    ValueOfDecimal(n);
  }

  lemma {:induction false} LeadingDigitsStop(digits: string, rest: string)
    requires forall i :: 0 <= i < |digits| ==> IsDigit(digits[i])
    requires rest == "" || !IsDigit(rest[0])
    ensures LeadingDigits(digits + rest) == digits
  {
    if digits == "" {
      assert digits + rest == rest;
    } else {
      LeadingDigitsStop(digits[1..], rest);
      assert (digits + rest)[1..] == digits[1..] + rest;
      assert digits == [digits[0]] + digits[1..];
    }
  }

  /** Whatever follows the number is ignored, and text that does not start with a digit, or with
      a sign and a digit, is no number. */
  lemma ParseIntIff(text: string, i: int, rest: string)
    requires rest == "" || !IsDigit(rest[0])
    ensures ParseInt(IntText(i) + rest) == Some(i)
    ensures ParseInt(text) == None
       <==> var unsigned := if text != "" && text[0] == '-' then text[1..] else text;
            unsigned == "" || !IsDigit(unsigned[0])
  {
    hide Decimal, Value;
    var n := if i >= 0 then i else -i;
    var signed := IntText(i) + rest;
    LeadingDigitsStop(Decimal(n), rest);
    ValueOfDecimal(n);
    if i < 0 {
      assert signed[1..] == Decimal(n) + rest;
    }
  }

  /** The order of Array.prototype.sort() without a comparator: UTF-16 code units. */
  predicate TextBelow(a: string, b: string) {
    if b == "" then false
    else if a == "" then true
    else if a[0] != b[0] then a[0] < b[0]
    else TextBelow(a[1..], b[1..])
  }

  lemma {:induction false} TextTotal(a: string, b: string)
    ensures !TextBelow(a, b) && !TextBelow(b, a) <==> a == b
    ensures !(TextBelow(a, b) && TextBelow(b, a))
  {
    if a != "" && b != "" && a[0] == b[0] {
      TextTotal(a[1..], b[1..]);
      assert a == [a[0]] + a[1..] && b == [b[0]] + b[1..];
    }
  }

  lemma {:induction false} TextTransitive(a: string, b: string, c: string)
    requires !TextBelow(b, a) && !TextBelow(c, b)
    ensures !TextBelow(c, a)
  {
    if a != "" && b != "" && c != "" && a[0] == b[0] == c[0] {
      TextTransitive(a[1..], b[1..], c[1..]);
    }
  }
}
