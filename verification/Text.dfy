/** Decimal text: what `%d` prints, what scanning it back reads, and the canonical numerals of a version. */
module Text {
  import opened Basics

  predicate IsDigit(c: char) { '0' <= c <= '9' }

  predicate AllDigits(s: string) { forall i | 0 <= i < |s| :: IsDigit(s[i]) }

  function Digit(d: nat): (c: char)
    requires d < 10
  {
    (d + '0' as int) as char
  }

  function DigitValue(c: char): nat
    requires IsDigit(c)
  {
    c as int - '0' as int
  }

  /** Decimal digits of a natural number, without leading zeros. */
  function PrintNat(n: nat): string {
    if n < 10 then [Digit(n)] else PrintNat(n / 10) + [Digit(n % 10)]
  }

  /** What `%d` prints. */
  function PrintInt(n: int): string {
    if n < 0 then "-" + PrintNat(-n) else PrintNat(n)
  }

  function ValueOf(s: string): nat
    requires AllDigits(s)
  {
    if s == "" then 0 else 10 * ValueOf(s[..|s| - 1]) + DigitValue(s[|s| - 1])
  }

  /** `0`, or digits that do not start with a zero: the numerals of item 2 of Semantic Versioning 2.0.0. */
  predicate Canonical(s: string) { s != "" && AllDigits(s) && (|s| > 1 ==> s[0] != '0') }

  lemma {:induction false} PrintNatIsCanonical(n: nat)
    ensures Canonical(PrintNat(n)) && ValueOf(PrintNat(n)) == n
    ensures n > 0 ==> PrintNat(n)[0] != '0'
  {
    if n < 10 {
      assert PrintNat(n)[..0] == "";
    } else {
      PrintNatIsCanonical(n / 10);
      assert PrintNat(n)[..|PrintNat(n)| - 1] == PrintNat(n / 10);
    }
  }

  lemma {:induction false} CanonicalIsPrinted(s: string)
    requires Canonical(s)
    ensures PrintNat(ValueOf(s)) == s
    ensures |s| > 1 ==> ValueOf(s) >= 10
  {
    var front := s[..|s| - 1];
    if |s| == 1 {
      assert front == "";
    } else {
      CanonicalIsPrinted(front);
      assert ValueOf(s) == 10 * ValueOf(front) + DigitValue(s[|s| - 1]);
      if |s| == 2 {
        assert front == [s[0]] && front[..0] == "";
      }
      assert ValueOf(s) / 10 == ValueOf(front) && ValueOf(s) % 10 == DigitValue(s[|s| - 1]);
      assert s == front + [s[|s| - 1]];
    }
  }

  /** Length of the longest all-digit prefix. */
  function DigitSpan(s: string): (n: nat)
    ensures n <= |s| && AllDigits(s[..n]) && (n < |s| ==> !IsDigit(s[n]))
  {
    if s == "" || !IsDigit(s[0]) then 0
    else
      var rest := DigitSpan(s[1..]);
      assert s[..1 + rest] == [s[0]] + s[1..][..rest];
      1 + rest
  }

  lemma {:induction false} DigitSpanOf(s: string, rest: string)
    requires AllDigits(s) && (rest != "" ==> !IsDigit(rest[0]))
    ensures DigitSpan(s + rest) == |s|
  {
    if s != "" {
      assert (s + rest)[1..] == s[1..] + rest;
      DigitSpanOf(s[1..], rest);
    } else {
      assert s + rest == rest;
    }
  }

  /** Scanning with `%d`: an optional sign, then digits; the rest of the text is left unread. */
  function ScanInt(s: string): Option<int> {
    var negative := s != "" && s[0] == '-';
    var digits := if s != "" && (s[0] == '-' || s[0] == '+') then s[1..] else s;
    var n := DigitSpan(digits);
    if n == 0 then None
    else Some(if negative then -(ValueOf(digits[..n]) as int) else ValueOf(digits[..n]))
  }

  /** Printing with `%d` and scanning with `%d` is the identity on every integer, whatever text follows. */
  lemma ScanPrinted(n: int, rest: string)
    requires rest != "" ==> !IsDigit(rest[0])
    ensures ScanInt(PrintInt(n) + rest) == Some(n)
  {
    var m: nat := if n < 0 then -n else n;
    PrintNatIsCanonical(m);
    DigitSpanOf(PrintNat(m), rest);
    var s := PrintInt(n) + rest;
    if n < 0 {
      assert s[1..] == PrintNat(m) + rest;
    } else {
      assert s == PrintNat(m) + rest && IsDigit(s[0]);
    }
    assert (PrintNat(m) + rest)[..|PrintNat(m)|] == PrintNat(m);
  }

  lemma PrintIntChars(n: int)
    ensures forall i | 0 <= i < |PrintInt(n)| :: IsDigit(PrintInt(n)[i]) || PrintInt(n)[i] == '-'
    ensures AllDigits(PrintInt(n)) <==> n >= 0
    ensures PrintInt(n) != ""
  {
    PrintNatIsCanonical(if n < 0 then -n else n);
    if n < 0 {
      assert !IsDigit(PrintInt(n)[0]);
    }
  }
}
