/**
 * Human-readable byte amounts ("200GB", "3145728B", "-1MB") and their
 * conversion to whole megabytes with binary units.
 */
module ByteConverter {
  import opened Wrappers
  import opened Text

  datatype Unit = B | K | KB | M | MB | G | GB | T | TB

  const MEGABYTE: nat := 1048576

  function Multiplier(u: Unit): (m: nat)
    ensures 0 < m
  {
    match u
    case B => 1
    case K | KB => 1024
    case M | MB => 1048576
    case G | GB => 1073741824
    case T | TB => 1099511627776
  }

  function UnitName(u: Unit): string {
    match u
    case B => "B"
    case K => "K"
    case KB => "KB"
    case M => "M"
    case MB => "MB"
    case G => "G"
    case GB => "GB"
    case T => "T"
    case TB => "TB"
  }

  function UpperChar(c: char): char {
    if 'a' <= c <= 'z' then (c as int - 32) as char else c
  }

  /** The text spells the unit's name, letters compared without regard to case. */
  predicate Spells(text: string, u: Unit) {
    var name := UnitName(u);
    |text| == |name| && forall i :: 0 <= i < |text| ==> UpperChar(text[i]) == name[i]
  }

  /** The unit a suffix names: B, K, KB, M, MB, G, GB, T or TB, in either case. */
  function ParseUnit(text: string): (r: Option<Unit>)
    ensures r.Some? ==> Spells(text, r.value)
    ensures r.Some? ==> 0 < |text| && !IsDigit(text[0]) && text[0] != '.'
    ensures r.None? ==> forall u :: !Spells(text, u)
  {
    if |text| == 1 then
      match UpperChar(text[0])
      case 'B' => Some(B)
      case 'K' => Some(K)
      case 'M' => Some(M)
      case 'G' => Some(G)
      case 'T' => Some(T)
      case _ => None
    else if |text| == 2 && UpperChar(text[1]) == 'B' then
      match UpperChar(text[0])
      case 'K' => Some(KB)
      case 'M' => Some(MB)
      case 'G' => Some(GB)
      case 'T' => Some(TB)
      case _ => None
    else None
  }

  /** An amount as written: sign, whole digits, fraction digits, unit suffix. */
  datatype Quantity = Quantity(negative: bool, whole: string, fraction: string, unitText: string, unit: Unit)

  ghost predicate WellFormed(q: Quantity) {
    && 0 < |q.whole| && AllDigits(q.whole) && AllDigits(q.fraction)
    && ParseUnit(q.unitText) == Some(q.unit)
  }

  function Render(q: Quantity): string {
    (if q.negative then "-" else "") + q.whole + (if q.fraction == "" then "" else "." + q.fraction) + q.unitText
  }

  datatype ByteError = NonNumeric | InvalidUnits

  /** The amount starts like a number: /\A-?\d/. */
  predicate StartsNumeric(s: string) {
    0 < |s| && (IsDigit(s[0]) || (s[0] == '-' && 1 < |s| && IsDigit(s[1])))
  }

  /** The text after a digit run: an optional ".digits" fraction, then the unit suffix. */
  function SplitFraction(rest: string): (r: (string, string))
    ensures AllDigits(r.0)
    ensures rest == (if r.0 == "" then "" else "." + r.0) + r.1
    ensures r.0 == "" ==> r.1 == rest
  {
    if 2 <= |rest| && rest[0] == '.' && IsDigit(rest[1]) then
      var f := DigitRun(rest[1..]);
      assert rest == "." + rest[1..][..f] + rest[1..][f..];
      (rest[1..][..f], rest[1..][f..])
    else ("", rest)
  }

  /** The leading digits of a text and what follows them. */
  function SplitWhole(body: string): (r: (string, string))
    ensures body == r.0 + r.1
    ensures AllDigits(r.0)
    ensures 0 < |body| && IsDigit(body[0]) ==> 0 < |r.0|
    ensures r.1 == [] || !IsDigit(r.1[0])
  {
    var k := DigitRun(body);
    assert body == body[..k] + body[k..];
    (body[..k], body[k..])
  }

  /**
   * Reads an amount in the form /\A(-?\d+(?:\.\d+)?)(B|K|KB|M|MB|G|GB|T|TB)\z/i.
   * A text that does not even start like a number is NonNumeric; one that
   * does but does not end in a supported unit is InvalidUnits.
   */
  function ParseQuantity(s: string): (r: Result<Quantity, ByteError>)
    ensures r == Failure(NonNumeric) <==> !StartsNumeric(s)
    ensures r.Success? ==> WellFormed(r.value)
    ensures r.Success? ==> Render(r.value) == s
  {
    if !StartsNumeric(s) then Failure(NonNumeric)
    else
      var negative := s[0] == '-';
      var sign := if negative then "-" else "";
      var body := if negative then s[1..] else s;
      assert s == sign + body;
      var (whole, rest) := SplitWhole(body);
      var (fraction, unitText) := SplitFraction(rest);
      match ParseUnit(unitText)
      case None => Failure(InvalidUnits)
      case Some(u) =>
        var fractionPart := if fraction == "" then "" else "." + fraction;
        ConcatAssociates(sign, whole, fractionPart, unitText);
        Success(Quantity(negative, whole, fraction, unitText, u))
  }

  lemma ConcatAssociates(a: string, b: string, c: string, d: string)
    ensures a + b + c + d == a + (b + (c + d))
  {
  }

  /** The amount's digits without the point, and the power of ten it is to be divided by. */
  function Numerator(q: Quantity): nat
    requires WellFormed(q)
  {
    DigitsValueAppend(q.whole, q.fraction);
    DigitsValue(q.whole + q.fraction)
  }

  lemma FloorDivBounds(a: nat, d: nat)
    requires 0 < d
    ensures 0 <= a / d
    ensures (a / d) * d <= a < (a / d + 1) * d
  {
  }

  /** The amount times its unit, in bytes scaled by Divisor. */
  function Scaled(q: Quantity): nat
    requires WellFormed(q)
  {
    Numerator(q) * Multiplier(q.unit)
  }

  /** One megabyte, scaled by the power of ten of the fraction. */
  function Divisor(q: Quantity): (d: nat)
    ensures 0 < d
  {
    Pow10(|q.fraction|) * MEGABYTE
  }

  /**
   * The amount in whole megabytes: the magnitude is floored, the sign kept,
   * so a negative amount truncates toward zero. The arithmetic is exact over
   * the decimal digits written, not in double precision.
   */
  function Megabytes(q: Quantity): (mb: int)
    requires WellFormed(q)
    ensures q.negative ==> mb <= 0
    ensures !q.negative ==> 0 <= mb
    ensures var m := if q.negative then -mb else mb;
            m * Divisor(q) <= Scaled(q) < (m + 1) * Divisor(q)
  {
    FloorDivBounds(Scaled(q), Divisor(q));
    var magnitude := Scaled(q) / Divisor(q);
    if q.negative then -magnitude else magnitude
  }

  /** PalmCivet.to_megabytes as the byte converter calls it. */
  function ToMegabytes(s: string): (r: Result<int, ByteError>)
    ensures r == Failure(NonNumeric) <==> !StartsNumeric(s)
  {
    match ParseQuantity(s)
    case Success(q) => Success(Megabytes(q))
    case Failure(e) => Failure(e)
  }

  lemma {:induction false} DigitRunPrefix(digits: string, tail: string)
    requires AllDigits(digits)
    requires tail == [] || !IsDigit(tail[0])
    ensures DigitRun(digits + tail) == |digits|
    decreases |digits|
  {
    if digits == [] {
      assert digits + tail == tail;
    } else {
      assert (digits + tail)[1..] == digits[1..] + tail;
      DigitRunPrefix(digits[1..], tail);
    }
  }

  lemma {:induction false} SplitWholeOf(digits: string, tail: string)
    requires AllDigits(digits)
    requires tail == [] || !IsDigit(tail[0])
    ensures SplitWhole(digits + tail) == (digits, tail)
  {
    DigitRunPrefix(digits, tail);
    assert (digits + tail)[..|digits|] == digits;
    assert (digits + tail)[|digits|..] == tail;
  }

  lemma {:induction false} SplitFractionOf(fraction: string, unitText: string)
    requires AllDigits(fraction)
    requires ParseUnit(unitText).Some?
    ensures SplitFraction((if fraction == "" then "" else "." + fraction) + unitText) == (fraction, unitText)
  {
    if fraction != "" {
      var rest := "." + fraction + unitText;
      assert rest[1..] == fraction + unitText;
      DigitRunPrefix(fraction, unitText);
      assert rest[1..][..|fraction|] == fraction;
      assert rest[1..][|fraction|..] == unitText;
    } else {
      assert "" + unitText == unitText;
    }
  }

  /** Every well-formed amount is read back exactly as it was rendered. */
  lemma {:induction false} ParseRendered(q: Quantity)
    requires WellFormed(q)
    ensures ParseQuantity(Render(q)) == Success(q)
  {
    var sign := if q.negative then "-" else "";
    var rest := (if q.fraction == "" then "" else "." + q.fraction) + q.unitText;
    ConcatAssociates(sign, q.whole, if q.fraction == "" then "" else "." + q.fraction, q.unitText);
    var body := q.whole + rest;
    assert Render(q) == sign + body;
    assert q.negative ==> (sign + body)[1..] == body;
    assert !q.negative ==> sign + body == body;
    SplitWholeOf(q.whole, rest);
    SplitFractionOf(q.fraction, q.unitText);
  }

  lemma ParseUnitName(u: Unit)
    ensures ParseUnit(UnitName(u)) == Some(u)
  {
  }

  /** An amount with no fraction and no sign: its digits times the unit, floored to megabytes. */
  lemma WholeMegabytes(q: Quantity)
    requires WellFormed(q) && !q.negative && q.fraction == ""
    ensures Megabytes(q) == DigitsValue(q.whole) * Multiplier(q.unit) / MEGABYTE
  {
    assert q.whole + q.fraction == q.whole;
    assert Divisor(q) == MEGABYTE;
  }

  /** A whole number followed by a supported unit converts with binary units, flooring. */
  lemma {:induction false} ConvertWholeAmount(n: nat, u: Unit)
    ensures ToMegabytes(NatToDigits(n) + UnitName(u)) == Success(n * Multiplier(u) / MEGABYTE)
  {
    var q := Quantity(false, NatToDigits(n), "", UnitName(u), u);
    ParseWholeAmount(n, u);
    NatToDigitsRoundTrip(n);
    WholeMegabytes(q);
  }

  lemma {:induction false} ParseWholeAmount(n: nat, u: Unit)
    ensures ParseQuantity(NatToDigits(n) + UnitName(u)) == Success(Quantity(false, NatToDigits(n), "", UnitName(u), u))
  {
    var q := Quantity(false, NatToDigits(n), "", UnitName(u), u);
    assert WellFormed(q) by {
      ParseUnitName(u);
    }
    assert Render(q) == NatToDigits(n) + UnitName(u) by {
      assert Render(q) == "" + NatToDigits(n) + "" + UnitName(u);
    }
    ParseRendered(q);
  }

  /** A number followed by anything but a supported unit is rejected for its unit. */
  lemma {:induction false} UnsupportedUnit(n: nat, suffix: string)
    requires suffix == [] || (!IsDigit(suffix[0]) && suffix[0] != '.')
    requires ParseUnit(suffix).None?
    ensures ToMegabytes(NatToDigits(n) + suffix) == Failure(InvalidUnits)
  {
    var s := NatToDigits(n) + suffix;
    DigitRunPrefix(NatToDigits(n), suffix);
    assert s[..|NatToDigits(n)|] == NatToDigits(n);
    assert s[|NatToDigits(n)|..] == suffix;
  }
}
