/** Conversion of EXIF (degrees, minutes, seconds) triples to signed decimal degrees. */
module CoordinatesUtils {

  /** An EXIF GPS triple. */
  datatype Dms = Dms(degrees: real, minutes: real, seconds: real)

  /** Only the exact one-letter strings "S" and "W" make the value negative. */
  predicate IsNegating(reference: string)
  {
    reference in ["S", "W"]
  }

  /** The decimal value before rounding: all three parts negated for "S" and "W". */
  function Unrounded(dms: Dms, reference: string): (r: real)
    ensures !IsNegating(reference) ==> r == dms.degrees + dms.minutes / 60.0 + dms.seconds / 3600.0
    ensures IsNegating(reference) ==> r == -(dms.degrees + dms.minutes / 60.0 + dms.seconds / 3600.0)
  {
    var degrees := dms.degrees;
    var minutes := dms.minutes / 60.0;
    var seconds := dms.seconds / 60.0 / 60.0;
    if IsNegating(reference) then -degrees + -minutes + -seconds
    else degrees + minutes + seconds
  }

  /** The scaled value `x * 10^6` rounded to the nearest integer, ties to the even one
      (Python's `round`). */
  predicate IsRoundedMicro(x: real, n: int)
  {
    var d := x * 1000000.0 - n as real;
    && -0.5 <= d <= 0.5
    && (d == 0.5 ==> n % 2 == 0)
    && (d == -0.5 ==> n % 2 == 0)
  }

  function RoundMicro(x: real): (n: int)
    ensures IsRoundedMicro(x, n)
  {
    var y := x * 1000000.0;
    var f := y.Floor;
    var frac := y - f as real;
    if frac < 0.5 then f
    else if frac > 0.5 then f + 1
    else if f % 2 == 0 then f
    else f + 1
  }

  /** Rounding to the nearest micro-degree has exactly one answer. */
  lemma RoundedMicroUnique(x: real, n: int, m: int)
    requires IsRoundedMicro(x, n) && IsRoundedMicro(x, m)
    ensures n == m
  {
  }

  /** Half-to-even rounding is symmetric around zero. */
  lemma RoundMicroNegate(x: real)
    ensures RoundMicro(-x) == -RoundMicro(x)
  {
    var n := RoundMicro(x);
    assert (-x) * 1000000.0 - (-n) as real == -(x * 1000000.0 - n as real);
    assert IsRoundedMicro(-x, -n);
    RoundedMicroUnique(-x, RoundMicro(-x), -n);
  }

  /** `round(x, 6)`: a whole number of micro-units, the one nearest to `x`, ties to even. */
  function Round6(x: real): (r: real)
    ensures (r * 1000000.0).Floor as real == r * 1000000.0
    ensures IsRoundedMicro(x, (r * 1000000.0).Floor)
  {
    var n := RoundMicro(x);
    assert (n as real / 1000000.0) * 1000000.0 == n as real;
    n as real / 1000000.0
  }

  /** `convert_degrees_to_decimal(dms, reference)`: the signed value rounded half-to-even
      to six decimals, so within half a micro-degree of it. */
  function ConvertDegreesToDecimal(dms: Dms, reference: string): (r: real)
    ensures (r * 1000000.0).Floor as real == r * 1000000.0
    ensures IsRoundedMicro(Unrounded(dms, reference), (r * 1000000.0).Floor)
    ensures -0.0000005 <= r - Unrounded(dms, reference) <= 0.0000005
  {
    Round6(Unrounded(dms, reference))
  }

  /** A negating reference gives exactly the negative of any other reference's value. */
  lemma {:induction false} NegatingReferenceNegates(dms: Dms, negating: string, other: string)
    requires IsNegating(negating) && !IsNegating(other)
    ensures ConvertDegreesToDecimal(dms, negating) == -ConvertDegreesToDecimal(dms, other)
  {
    RoundMicroNegate(Unrounded(dms, other));
  }

  /** Any reference other than exactly "S" or "W" leaves the sign alone. */
  lemma NonNegatingReferences(dms: Dms, reference: string)
    requires !IsNegating(reference)
    ensures ConvertDegreesToDecimal(dms, reference) == ConvertDegreesToDecimal(dms, "N")
  {
  }

  /** (0, 0, 0) converts to 0 under every reference. */
  lemma ZeroIsZero(reference: string)
    ensures ConvertDegreesToDecimal(Dms(0.0, 0.0, 0.0), reference) == 0.0
  {
    RoundedMicroUnique(0.0, RoundMicro(0.0), 0);
  }

  /** 18 deg 16' 16" E converts to 18.271111. */
  lemma LongitudeExample()
    ensures ConvertDegreesToDecimal(Dms(18.0, 16.0, 16.0), "E") == 18.271111
  {
    var x := Unrounded(Dms(18.0, 16.0, 16.0), "E");
    assert x * 1000000.0 - 18271111 as real == 1.0 / 9.0;
    RoundedMicroUnique(x, RoundMicro(x), 18271111);
  }

  /** 62 deg 56' 7" N converts to 62.935278. */
  lemma LatitudeExample()
    ensures ConvertDegreesToDecimal(Dms(62.0, 56.0, 7.0), "N") == 62.935278
  {
    var x := Unrounded(Dms(62.0, 56.0, 7.0), "N");
    assert x * 1000000.0 - 62935278 as real == -2.0 / 9.0;
    RoundedMicroUnique(x, RoundMicro(x), 62935278);
  }
}
