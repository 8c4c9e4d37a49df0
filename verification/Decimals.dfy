/** Numbers in print: decimal notation, zero padding, and reading back. */
module Decimals {
  import opened Tables

  predicate IsDigit(c: char) {
    '0' <= c <= '9'
  }

  predicate AllDigits(s: string) {
    forall i :: 0 <= i < |s| ==> IsDigit(s[i])
  }

  function Digit(n: nat): (c: char)
    requires n < 10
    ensures IsDigit(c) && c as int == '0' as int + n
  {
    '0' + n as char
  }

  function Decimal(n: nat): (s: string)
    ensures s != "" && AllDigits(s)
  {
    if n < 10 then [Digit(n)] else Decimal(n / 10) + [Digit(n % 10)]
  }

  function Value(s: string): nat
    requires AllDigits(s)
  {
    if s == "" then 0 else 10 * Value(s[..|s| - 1]) + (s[|s| - 1] as int - '0' as int)
  }

  lemma {:induction false} ValueOfDecimal(n: nat)
    ensures Value(Decimal(n)) == n
  {
    if n >= 10 {
      ValueOfDecimal(n / 10);
      assert Decimal(n)[..|Decimal(n)| - 1] == Decimal(n / 10);
    } else {
      assert Decimal(n)[..0] == "";
    }
  }

  function Power10(k: nat): nat {
    if k == 0 then 1 else 10 * Power10(k - 1)
  }

  lemma {:induction false} DecimalLength(n: nat, k: nat)
    requires k > 0
    ensures |Decimal(n)| <= k <==> n < Power10(k)
  {
    if k == 1 {
      assert Power10(1) == 10 * Power10(0);
    } else if n >= 10 {
      DecimalLength(n / 10, k - 1);
    } else {
      DecimalLength(n, k - 1);
    }
  }

  function Zeros(k: nat): (s: string)
    ensures |s| == k && AllDigits(s)
  {
    if k == 0 then "" else Zeros(k - 1) + "0"
  }

  lemma {:induction false} LeadingZeros(k: nat, s: string)
    requires AllDigits(s)
    ensures Value(Zeros(k) + s) == Value(s)
    decreases |s|, k
  {
    if s != "" {
      LeadingZeros(k, s[..|s| - 1]);
      assert (Zeros(k) + s)[..k + |s| - 1] == Zeros(k) + s[..|s| - 1];
    } else if k > 0 {
      LeadingZeros(k - 1, "");
      assert (Zeros(k) + s)[..k - 1] == Zeros(k - 1) + "";
    }
  }

  /** `f"{n:0{width}d}"` */
  function Padded(n: nat, width: nat): (s: string)
    ensures AllDigits(s) && |s| >= width
  {
    var s := Decimal(n);
    Zeros(if |s| < width then width - |s| else 0) + s
  }

  lemma PaddedExact(n: nat, width: nat)
    requires width > 0
    ensures |Padded(n, width)| == width <==> n < Power10(width)
    ensures Value(Padded(n, width)) == n
  {
    DecimalLength(n, width);
    ValueOfDecimal(n);
    LeadingZeros(if |Decimal(n)| < width then width - |Decimal(n)| else 0, Decimal(n));
  }

  /** How many digits `s` starts with. */
  function DigitsAhead(s: string): (n: nat)
    ensures n <= |s| && AllDigits(s[..n]) && (n < |s| ==> !IsDigit(s[n]))
  {
    if s == "" || !IsDigit(s[0]) then 0 else 1 + DigitsAhead(s[1..])
  }

  lemma {:induction false} DigitsAheadIs(s: string, n: nat)
    requires n <= |s| && AllDigits(s[..n]) && (n < |s| ==> !IsDigit(s[n]))
    ensures DigitsAhead(s) == n
  {
    if n > 0 {
      assert s[0] == s[..n][0];
      assert s[1..][..n - 1] == s[..n][1..];
      DigitsAheadIs(s[1..], n - 1);
    }
  }

  /** The number `s` starts with, and what follows it. */
  function ReadNat(s: string): Option<(nat, string)> {
    var n := DigitsAhead(s);
    if n == 0 then None else Some((Value(s[..n]), s[n..]))
  }

  lemma ReadDecimal(n: nat, rest: string)
    requires rest == "" || !IsDigit(rest[0])
    ensures ReadNat(Decimal(n) + rest) == Some((n, rest))
  {
    var d := Decimal(n);
    assert (d + rest)[..|d|] == d && (d + rest)[|d|..] == rest;
    DigitsAheadIs(d + rest, |d|);
    ValueOfDecimal(n);
  }

  /** How many digits `s` ends with. */
  function DigitsBehind(s: string): (n: nat)
    ensures n <= |s| && AllDigits(s[|s| - n..])
  {
    if s == "" || !IsDigit(s[|s| - 1]) then 0 else 1 + DigitsBehind(s[..|s| - 1])
  }

  lemma {:induction false} DigitsBehindIs(front: string, d: string)
    requires AllDigits(d) && (front == "" || !IsDigit(front[|front| - 1]))
    ensures DigitsBehind(front + d) == |d|
    decreases |d|
  {
    if d != "" {
      assert (front + d)[..|front| + |d| - 1] == front + d[..|d| - 1];
      DigitsBehindIs(front, d[..|d| - 1]);
    } else {
      assert front + d == front;
    }
  }
}
