/**
 The two Java primitive types whose semantics the alerter depends on:
 - `byte`, the type of the per-satellite breach counters, whose `++`
   wraps around from 127 to -128;
 - `double`, the type of the raw telemetry value, which is only ever used
   in strict comparisons against an `int` limit.
 */
module JavaNumbers {

  const ByteMin: int := -128
  const ByteMax: int := 127
  /** Number of distinct `byte` values: increments wrap modulo this. */
  const ByteModulus: int := 256

  type Byte = b: int | -128 <= b <= 127

  /** Java's `b++` on a `byte`: two's-complement wrap-around from 127 to -128. */
  function ByteIncrement(b: Byte): (r: Byte)
    ensures b < ByteMax ==> r == b + 1
    ensures b == ByteMax ==> r == ByteMin
    ensures (r - b - 1) % ByteModulus == 0
  {
    if b == ByteMax then ByteMin else b + 1
  }

  /** The value a `byte` counter holds after `n` increments starting from zero. */
  function ByteOfCount(n: nat): (r: Byte)
    ensures n <= ByteMax ==> r == n
    ensures (r - n) % ByteModulus == 0
  {
    (n + 128) % ByteModulus - 128
  }

  /** Incrementing the byte for `n` gives the byte for `n + 1`: the counter
      tracks its count modulo 256. */
  lemma ByteIncrementOfCount(n: nat)
    ensures ByteIncrement(ByteOfCount(n)) == ByteOfCount(n + 1)
  {
    if (n + 128) % ByteModulus == 255 {
      assert (n + 129) % ByteModulus == 0;
    } else {
      assert (n + 129) % ByteModulus == (n + 128) % ByteModulus + 1;
    }
  }

  /** A counter reads a given byte value again exactly every 256 increments. */
  lemma ByteOfCountPeriodic(n: nat)
    ensures ByteOfCount(n + ByteModulus) == ByteOfCount(n)
  {
  }

  /** The value of a `double` as produced by `Double.parseDouble`: a finite
      number, an infinity, or NaN. Rounding of the decimal text to the
      nearest double happens before this value exists. */
  datatype Double = Finite(value: real) | PositiveInfinity | NegativeInfinity | NaN

  /** `d < limit` where the `int` limit is widened to `double` (exact for
      every 32-bit int). Every comparison with NaN is false; negative
      infinity lies below and positive infinity above every limit. */
  function LessThan(d: Double, limit: int): (b: bool)
    ensures d == NaN || d == PositiveInfinity ==> !b
    ensures d == NegativeInfinity ==> b
    ensures d.Finite? ==> (b <==> d.value < limit as real)
  {
    match d
    case Finite(v) => v < limit as real
    case NegativeInfinity => true
    case PositiveInfinity => false
    case NaN => false
  }

  /** `d > limit`: the mirror of LessThan, since `d > limit` holds exactly
      when `-d < -limit`; a value is never on both sides of one limit. */
  function GreaterThan(d: Double, limit: int): (b: bool)
    ensures b <==> LessThan(Negate(d), -limit)
    ensures b ==> !LessThan(d, limit)
  {
    match d
    case Finite(v) => v > limit as real
    case PositiveInfinity => true
    case NegativeInfinity => false
    case NaN => false
  }

  /** IEEE negation: flips the sign of a finite value, swaps the infinities,
      and leaves NaN as it is. */
  function Negate(d: Double): Double
  {
    match d
    case Finite(v) => Finite(-v)
    case PositiveInfinity => NegativeInfinity
    case NegativeInfinity => PositiveInfinity
    case NaN => NaN
  }

  /** Apart from NaN, which is unordered, a value lies below a limit, above
      it, or equal to it, and in exactly one of the three. */
  lemma ComparisonTrichotomy(d: Double, limit: int)
    ensures d == NaN ==> !LessThan(d, limit) && !GreaterThan(d, limit)
    ensures d != NaN ==>
      (LessThan(d, limit) || GreaterThan(d, limit) || d == Finite(limit as real))
    ensures !(LessThan(d, limit) && GreaterThan(d, limit))
    ensures d == Finite(limit as real) ==> !LessThan(d, limit) && !GreaterThan(d, limit)
  {
  }

  /** NaN breaches neither limit, whatever the limits are. */
  lemma NaNBreachesNeither(low: int, high: int)
    ensures !LessThan(NaN, low) && !GreaterThan(NaN, high)
  {
  }

  /** A value can lie below one limit and above another only when the
      limits are inverted (low above high); NaN lies on neither side. */
  lemma BothSidesOnlyWhenLimitsInverted(d: Double, low: int, high: int)
    requires LessThan(d, low) && GreaterThan(d, high)
    ensures high < low
    ensures d != NaN
  {
  }
}
