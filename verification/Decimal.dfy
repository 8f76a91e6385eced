/** Decimal numbers as the programs print and parse them. */
module Decimal {
  import opened Common

  function DigitChar(d: int): (c: char)
    requires 0 <= d <= 9
    ensures IsDigit(c) && DigitValue(c) == d
  {
    (d + '0' as int) as char
  }

  predicate IsDigit(c: char) { '0' <= c <= '9' }

  function DigitValue(c: char): int
    requires IsDigit(c)
  {
    c as int - '0' as int
  }

  predicate AllDigits(s: string) { forall i :: 0 <= i < |s| ==> IsDigit(s[i]) }

  function Digits(n: nat): string {
    if n < 10 then [DigitChar(n)] else Digits(n / 10) + [DigitChar(n % 10)]
  }

  /** At least w digits, padded with zeros. */
  function Padded(n: nat, w: nat): string
    decreases w - |Digits(n)|
  {
    if |Digits(n)| >= w then Digits(n) else Zeros(w - |Digits(n)|) + Digits(n)
  }

  function Zeros(k: nat): string { if k == 0 then "" else Zeros(k - 1) + "0" }

  function Value(s: string): nat
    requires AllDigits(s)
  {
    if s == "" then 0 else 10 * Value(s[..|s| - 1]) + DigitValue(s[|s| - 1])
  }

  /** strconv.Atoi without the width limit: a sign, then at least one digit. */
  function Atoi(s: string): Option<int> {
    if s != "" && s[0] == '-' then
      if |s| > 1 && AllDigits(s[1..]) then Some(0 - Value(s[1..]) as int) else None
    else if s != "" && s[0] == '+' then
      if |s| > 1 && AllDigits(s[1..]) then Some(Value(s[1..])) else None
    else if s != "" && AllDigits(s) then Some(Value(s)) else None
  }

  lemma {:induction false} DigitsRoundTrip(n: nat)
    ensures Digits(n) != "" && AllDigits(Digits(n)) && Value(Digits(n)) == n
  {
    if n < 10 {
      assert Digits(n)[..0] == "";
    } else {
      DigitsRoundTrip(n / 10);
      assert Digits(n)[..|Digits(n)| - 1] == Digits(n / 10);
    }
  }

  lemma {:induction false} LeadingZeros(k: nat, s: string)
    requires AllDigits(s)
    ensures AllDigits(Zeros(k) + s) && Value(Zeros(k) + s) == Value(s) && |Zeros(k)| == k
  {
    if k == 0 {
      assert Zeros(0) + s == s;
    } else {
      assert AllDigits("0" + s);
      ZeroInFront(s);
      LeadingZeros(k - 1, "0" + s);
      assert Zeros(k) + s == Zeros(k - 1) + ("0" + s);
      LeadingZeros(k - 1, s);
    }
  }

  lemma {:induction false} ZeroInFront(s: string)
    requires AllDigits(s)
    ensures AllDigits("0" + s) && Value("0" + s) == Value(s)
  {
    if s == "" {
      assert ("0" + s)[..0] == "";
    } else {
      assert ("0" + s)[..|s|] == "0" + s[..|s| - 1];
      ZeroInFront(s[..|s| - 1]);
    }
  }

  lemma PaddedRoundTrip(n: nat, w: nat)
    ensures AllDigits(Padded(n, w)) && Padded(n, w) != "" && Value(Padded(n, w)) == n && Atoi(Padded(n, w)) == Some(n)
    ensures |Padded(n, w)| == Max(w, |Digits(n)|)
  {
    DigitsRoundTrip(n);
    if |Digits(n)| < w { LeadingZeros(w - |Digits(n)|, Digits(n)); }
    AtoiDigits(Padded(n, w));
  }

  lemma AtoiDigits(s: string)
    requires AllDigits(s) && s != ""
    ensures Atoi(s) == Some(Value(s))
  {
    assert IsDigit(s[0]);
  }

  lemma DigitsAtoi(n: nat)
    ensures Atoi(Digits(n)) == Some(n)
  {
    DigitsRoundTrip(n);
  }

  /** A number below a power of ten fits in that many digits. */
  lemma {:induction false} DigitsLong(n: nat, w: nat)
    requires n >= Power10(w)
    ensures |Digits(n)| > w
  {
    if w > 0 {
      assert n / 10 >= Power10(w - 1);
      DigitsLong(n / 10, w - 1);
    }
  }

  lemma {:induction false} DigitsFit(n: nat, w: nat)
    requires w >= 1 && n < Power10(w)
    ensures |Digits(n)| <= w
  {
    if n >= 10 {
      assert Power10(1) == 10 * Power10(0);
      DigitsFit(n / 10, w - 1);
    }
  }

  function Power10(w: nat): nat { if w == 0 then 1 else 10 * Power10(w - 1) }

  /** A number with its sign. */
  function Signed(n: int): string { if n < 0 then "-" + Digits(-n) else Digits(n) }

  /** A printed number reads back. */
  lemma SignedReads(n: int)
    ensures Atoi(Signed(n)) == Some(n)
  {
    if n < 0 {
      DigitsRoundTrip(-n);
      assert Signed(n)[1..] == Digits(-n);
    } else {
      DigitsRoundTrip(n);
      assert IsDigit(Digits(n)[0]);
    }
  }
}
