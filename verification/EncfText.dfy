/** The text of a fiscal number: a prefix and the number padded to ten digits. */
module EncfText {
  import opened Wrappers

  function Digit(d: nat): char
    requires d < 10
  {
    ('0' as int + d) as char
  }

  predicate IsDigit(c: char) {
    '0' <= c <= '9'
  }

  function Digits(n: nat): string {
    if n < 10 then [Digit(n)] else Digits(n / 10) + [Digit(n % 10)]
  }

  function Zeros(k: nat): string {
    if k == 0 then "" else "0" + Zeros(k - 1)
  }

  /** setw(10) with setfill('0'): pads, and never truncates. */
  function Padded(n: nat): string {
    Zeros(if |Digits(n)| < 10 then 10 - |Digits(n)| else 0) + Digits(n)
  }

  function Format(prefix: string, n: nat): string {
    prefix + Padded(n)
  }

  /** The value of a digit string, most significant digit first. */
  function Value(s: string, acc: nat): nat
    requires forall i :: 0 <= i < |s| ==> IsDigit(s[i])
  {
    if s == "" then acc else assert IsDigit(s[0]); Value(s[1..], 10 * acc + (s[0] as int - '0' as int))
  }

  function DigitPrefix(s: string): (k: nat)
    ensures k <= |s|
    ensures forall i :: 0 <= i < k ==> IsDigit(s[i])
    ensures k < |s| ==> !IsDigit(s[k])
  {
    if s != "" && IsDigit(s[0]) then 1 + DigitPrefix(s[1..]) else 0
  }

  /** stoll on unsigned text: the longest digit prefix, or nothing when there is none. */
  function Stoll(s: string): Option<nat> {
    if DigitPrefix(s) == 0 then None else Some(Value(s[..DigitPrefix(s)], 0))
  }

  lemma {:induction false} DigitsAreDigits(n: nat)
    ensures |Digits(n)| > 0 && forall i :: 0 <= i < |Digits(n)| ==> IsDigit(Digits(n)[i])
  {
    if n >= 10 {
      DigitsAreDigits(n / 10);
    }
  }

  lemma {:induction false} ZerosAreZeros(k: nat)
    ensures |Zeros(k)| == k && forall i :: 0 <= i < k ==> Zeros(k)[i] == '0'
  {
    if k > 0 {
      ZerosAreZeros(k - 1);
    }
  }

  lemma {:induction false} ValueSnoc(s: string, c: char, acc: nat)
    requires (forall i :: 0 <= i < |s| ==> IsDigit(s[i])) && IsDigit(c)
    ensures Value(s + [c], acc) == 10 * Value(s, acc) + (c as int - '0' as int)
  {
    if s == "" {
      assert (s + [c])[1..] == "";
    } else {
      assert (s + [c])[1..] == s[1..] + [c];
      ValueSnoc(s[1..], c, 10 * acc + (s[0] as int - '0' as int));
    }
  }

  lemma {:induction false} ValueOfDigits(n: nat)
    requires forall i :: 0 <= i < |Digits(n)| ==> IsDigit(Digits(n)[i])
    ensures Value(Digits(n), 0) == n
  {
    if n >= 10 {
      DigitsAreDigits(n / 10);
      ValueOfDigits(n / 10);
      ValueSnoc(Digits(n / 10), Digit(n % 10), 0);
    }
  }

  lemma {:induction false} ValueOfZeros(k: nat, s: string)
    requires forall i :: 0 <= i < |s| ==> IsDigit(s[i])
    requires forall i :: 0 <= i < |Zeros(k) + s| ==> IsDigit((Zeros(k) + s)[i])
    ensures Value(Zeros(k) + s, 0) == Value(s, 0)
  {
    if k == 0 {
      assert Zeros(0) + s == s;
    } else {
      assert (Zeros(k) + s)[1..] == Zeros(k - 1) + s;
      ZerosAreZeros(k - 1);
      ValueOfZeros(k - 1, s);
    }
  }

  lemma AllDigits(s: string)
    requires forall i :: 0 <= i < |s| ==> IsDigit(s[i])
    ensures DigitPrefix(s) == |s|
  {
  }

  function Pow10(k: nat): nat {
    if k == 0 then 1 else 10 * Pow10(k - 1)
  }

  lemma {:induction false} DigitsFit(n: nat, k: nat)
    requires 0 < k && n < Pow10(k)
    ensures |Digits(n)| <= k
  {
    if n >= 10 {
      DigitsFit(n / 10, k - 1);
    }
  }

  /** Up to ten digits the text has exactly ten. */
  lemma PaddedIsTenDigits(n: nat)
    requires n < 10000000000
    ensures |Padded(n)| == 10 && forall i :: 0 <= i < 10 ==> IsDigit(Padded(n)[i])
  {
    assert Pow10(10) == 10000000000;
    DigitsFit(n, 10);
    DigitsAreDigits(n);
    ZerosAreZeros(10 - |Digits(n)|);
  }

  /** Parsing what was printed gives the number back, for every number. */
  lemma PaddedRoundTrip(n: nat)
    ensures Stoll(Padded(n)) == Some(n) && |Padded(n)| >= 10
  {
    var k := if |Digits(n)| < 10 then 10 - |Digits(n)| else 0;
    DigitsAreDigits(n);
    ZerosAreZeros(k);
    AllDigits(Padded(n));
    assert Padded(n)[..|Padded(n)|] == Padded(n);
    ValueOfZeros(k, Digits(n));
    ValueOfDigits(n);
  }

  /** Different numbers print differently. */
  lemma FormatInjective(prefix: string, a: nat, b: nat)
    requires Format(prefix, a) == Format(prefix, b)
    ensures a == b
  {
    assert Format(prefix, a)[|prefix|..] == Padded(a) && Format(prefix, b)[|prefix|..] == Padded(b);
    PaddedRoundTrip(a);
    PaddedRoundTrip(b);
  }
}
