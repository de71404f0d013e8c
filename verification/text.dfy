/**
 * Decimal digit strings: the integer literals that manifest values are
 * written in, their parsing, and Ruby's Integer#to_s.
 */
module Text {
  import opened Wrappers

  predicate IsDigit(c: char) { '0' <= c <= '9' }

  predicate AllDigits(s: string) {
    forall i :: 0 <= i < |s| ==> IsDigit(s[i])
  }

  function DigitValue(c: char): (d: nat)
    requires IsDigit(c)
    ensures d < 10
  {
    c as int - '0' as int
  }

  function DigitChar(d: nat): (c: char)
    requires d < 10
    ensures IsDigit(c) && DigitValue(c) == d
  {
    ('0' as int + d) as char
  }

  /** The number a digit string denotes, most significant digit first. */
  function DigitsValue(s: string): nat
    requires AllDigits(s)
  {
    if s == [] then 0 else DigitsValue(s[..|s| - 1]) * 10 + DigitValue(s[|s| - 1])
  }

  /** Shortest decimal rendering of a natural number. */
  function NatToDigits(n: nat): (s: string)
    ensures AllDigits(s) && 0 < |s|
    ensures n < 10 <==> |s| == 1
  {
    if n < 10 then [DigitChar(n)] else NatToDigits(n / 10) + [DigitChar(n % 10)]
  }

  /** Ruby's Integer#to_s. */
  function IntToString(i: int): (s: string)
    ensures 0 < |s|
    ensures s[0] == '-' <==> i < 0
  {
    if i < 0 then "-" + NatToDigits(-i) else NatToDigits(i)
  }

  /** Length of the longest prefix of s made only of digits. */
  function DigitRun(s: string): (k: nat)
    ensures k <= |s| && AllDigits(s[..k])
    ensures k < |s| ==> !IsDigit(s[k])
  {
    if s == [] || !IsDigit(s[0]) then 0
    else
      var k := 1 + DigitRun(s[1..]);
      assert s[..k] == [s[0]] + s[1..][..k - 1];
      k
  }

  /** An integer literal in the sense of /\A[+-]?\d+\z/, and its value. */
  function ParseIntLiteral(s: string): (r: Option<int>)
    ensures r.Some? ==> 0 < |s|
  {
    if s == [] then None
    else if s[0] == '-' || s[0] == '+' then
      var body := s[1..];
      if body != [] && AllDigits(body) then
        var v: int := DigitsValue(body);
        Some(if s[0] == '-' then -v else v)
      else None
    else if AllDigits(s) then Some(DigitsValue(s))
    else None
  }

  /** A decimal fraction in the sense of /\A[+-]?\d+\.\d+\z/. */
  predicate IsDecimalFraction(s: string) {
    var body := if s != [] && (s[0] == '-' || s[0] == '+') then s[1..] else s;
    var k := DigitRun(body);
    0 < k && k + 1 < |body| && body[k] == '.' && AllDigits(body[k + 1..])
  }

  lemma {:induction false} DigitsValueAppend(s: string, t: string)
    requires AllDigits(s) && AllDigits(t)
    ensures AllDigits(s + t)
    ensures DigitsValue(s + t) == DigitsValue(s) * Pow10(|t|) + DigitsValue(t)
    decreases |t|
  {
    if t == [] {
      assert s + t == s;
    } else {
      var t' := t[..|t| - 1];
      assert (s + t)[..|s + t| - 1] == s + t';
      assert (s + t)[|s + t| - 1] == t[|t| - 1];
      DigitsValueAppend(s, t');
      ShiftDigit(DigitsValue(s), Pow10(|t'|), DigitsValue(t'), DigitValue(t[|t| - 1]));
    }
  }

  lemma ShiftDigit(a: nat, b: nat, c: nat, d: nat)
    ensures (a * b + c) * 10 + d == a * (10 * b) + (c * 10 + d)
  {
  }

  function Pow10(k: nat): (p: nat)
    ensures 0 < p
  {
    if k == 0 then 1 else 10 * Pow10(k - 1)
  }

  /** Reading back the rendering of n gives n. */
  lemma {:induction false} NatToDigitsRoundTrip(n: nat)
    ensures DigitsValue(NatToDigits(n)) == n
  {
    if n >= 10 {
      var s := NatToDigits(n);
      assert s[..|s| - 1] == NatToDigits(n / 10);
      NatToDigitsRoundTrip(n / 10);
    }
  }

  /** Integer#to_s is read back by the integer-literal parser. */
  lemma IntToStringRoundTrip(i: int)
    ensures ParseIntLiteral(IntToString(i)) == Some(i)
  {
    var s := IntToString(i);
    if i < 0 {
      var digits := NatToDigits(-i);
      assert s == "-" + digits;
      assert s[1..] == digits;
      NatToDigitsRoundTrip(-i);
    } else {
      var digits := NatToDigits(i);
      assert s == digits;
      assert IsDigit(s[0]);
      NatToDigitsRoundTrip(i);
    }
  }
}
