/** Numbers as text, in the bases the programs print and read. */
module Numerals {
  import opened Basics

  const DIGIT_CHARS := "0123456789ABCDEF"

  function DigitChar(d: nat): (c: char)
    requires d < 16
    ensures DigitVal(c) == d && IsHexDigit(c) && (d < 10 ==> IsDigit(c))
  {
    DIGIT_CHARS[d]
  }

  predicate IsDigit(c: char) { '0' <= c <= '9' }

  predicate IsHexDigit(c: char) { IsDigit(c) || 'A' <= c <= 'F' || 'a' <= c <= 'f' }

  function DigitVal(c: char): nat
  {
    if IsDigit(c) then c as nat - '0' as nat
    else if 'A' <= c <= 'F' then c as nat - 'A' as nat + 10
    else if 'a' <= c <= 'f' then c as nat - 'a' as nat + 10
    else 0
  }

  /** The digits of a number, most significant first. */
  function Digits(n: nat, base: nat): (s: string)
    requires 2 <= base <= 16
    ensures s != ""
    decreases n
  {
    if n < base then [DigitChar(n)]
    else DivShrinks(n, base); Digits(n / base, base) + [DigitChar(n % base)]
  }

  lemma {:induction false} DivShrinks(n: nat, base: nat)
    requires 2 <= base <= n
    ensures 1 <= n / base < n
  {
    assert n == base * (n / base) + n % base;
    MulAtLeastTwice(base, n / base);
  }

  lemma {:induction false} MulAtLeastTwice(b: nat, q: nat)
    requires b >= 2 && q >= 1
    ensures b * q >= 2 * q
  {
  }

  function ValueOf(s: string, base: nat): nat
  {
    if s == "" then 0 else ValueOf(s[..|s| - 1], base) * base + DigitVal(s[|s| - 1])
  }

  lemma {:induction false} ValueSnoc(s: string, c: char, base: nat)
    ensures ValueOf(s + [c], base) == ValueOf(s, base) * base + DigitVal(c)
  {
    assert (s + [c])[..|s + [c]| - 1] == s;
  }

  lemma {:induction false} DivMod(n: nat, base: nat)
    requires base >= 1
    ensures (n / base) * base + n % base == n && n % base < base
  {
  }

  /** Reading the digits gives the number back. */
  lemma {:induction false} DigitsValue(n: nat, base: nat)
    requires 2 <= base <= 16
    ensures ValueOf(Digits(n, base), base) == n
    decreases n
  {
    if n < base {
      ValueSnoc("", DigitChar(n), base);
      assert "" + [DigitChar(n)] == Digits(n, base);
    } else {
      var q, r := n / base, n % base;
      DivShrinks(n, base);
      DivMod(n, base);
      DigitsValue(q, base);
      ValueSnoc(Digits(q, base), DigitChar(r), base);
    }
  }

  lemma {:induction false} DigitsAreDigits(n: nat, base: nat)
    requires 2 <= base <= 16
    ensures forall i :: 0 <= i < |Digits(n, base)| ==> IsHexDigit(Digits(n, base)[i])
    ensures base <= 10 ==> forall i :: 0 <= i < |Digits(n, base)| ==> IsDigit(Digits(n, base)[i])
    ensures n >= 1 ==> Digits(n, base)[0] != '0'
    ensures n < base <==> |Digits(n, base)| == 1
    decreases n
  {
    if n >= base {
      DivShrinks(n, base);
      DigitsAreDigits(n / base, base);
    }
  }

  /** Signed decimal, as printf and to_string write it. */
  function Decimal(n: int): string
  {
    if n < 0 then "-" + Digits(-n, 10) else Digits(n, 10)
  }
}
