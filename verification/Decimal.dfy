/** The `%d` verb of Go's fmt package, printing and scanning. */
module Decimal {

  predicate IsDigit(c: char) { '0' <= c <= '9' }

  function DigitValue(c: char): (d: int)
    requires IsDigit(c)
  { c as int - '0' as int }

  function DigitChar(d: int): (c: char)
    requires 0 <= d < 10
    ensures IsDigit(c) && DigitValue(c) == d
  { '0' + d as char }

  function PrintNat(n: nat): (s: string)
    ensures s != ""
    ensures forall c :: c in s ==> IsDigit(c)
  {
    if n < 10 then [DigitChar(n)] else PrintNat(n / 10) + [DigitChar(n % 10)]
  }

  function Print(n: int): (s: string)
    ensures s != "" && '.' !in s
  {
    if n < 0 then "-" + PrintNat(-n) else PrintNat(n)
  }

  /** Value of the leading run of digits, accumulated from the left. */
  function ScanDigits(s: string, acc: nat): nat {
    if s == "" || !IsDigit(s[0]) then acc
    else ScanDigits(s[1..], 10 * acc + DigitValue(s[0]))
  }

  /** `fmt.Sscanf(s, "%d", &p)` into a zeroed `p`: an optional sign, then the
      digits up to the first other character. */
  function Scan(s: string): int {
    if s != "" && s[0] == '-' then 0 - ScanDigits(s[1..], 0)
    else if s != "" && s[0] == '+' then ScanDigits(s[1..], 0)
    else ScanDigits(s, 0)
  }

  lemma {:induction false} ScanDigitsAppend(s: string, c: char, acc: nat)
    requires forall x :: x in s ==> IsDigit(x)
    requires IsDigit(c)
    ensures ScanDigits(s + [c], acc) == 10 * ScanDigits(s, acc) + DigitValue(c)
  {
    if s == "" {
      assert ([c])[1..] == "";
    } else {
      assert (s + [c])[1..] == s[1..] + [c];
      ScanDigitsAppend(s[1..], c, 10 * acc + DigitValue(s[0]));
    }
  }

  lemma {:induction false} ScanDigitsPrintNat(n: nat)
    ensures ScanDigits(PrintNat(n), 0) == n
  {
    if n < 10 {
      assert [DigitChar(n)][1..] == "";
    } else {
      ScanDigitsPrintNat(n / 10);
      ScanDigitsAppend(PrintNat(n / 10), DigitChar(n % 10), 0);
    }
  }

  /** Round trip: scanning what `%d` printed gives the number back. */
  lemma {:induction false} ScanPrint(n: int)
    ensures Scan(Print(n)) == n
  {
    if n < 0 {
      assert Print(n)[1..] == PrintNat(-n);
      ScanDigitsPrintNat(-n);
    } else {
      ScanDigitsPrintNat(n);
      assert IsDigit(PrintNat(n)[0]);
    }
  }

  lemma {:induction false} PrintInjective(m: int, n: int)
    requires Print(m) == Print(n)
    ensures m == n
  {
    ScanPrint(m);
    ScanPrint(n);
  }
}
