/** Shared vocabulary of the analysis engine: unsigned bytes, an option type,
    small numeric helpers, the sample-rate fallback and the laws that the
    browser's Math.sqrt and Math.log10 are assumed to obey. */
module Common {

  /** One element of a Uint8Array. */
  type Byte = x: int | 0 <= x < 256

  datatype Option<T> = None | Some(value: T)

  /** The sample rate used when the audio context reports none. */
  const DefaultSampleRate: real := 44100.0

  function Abs(x: real): real { if x < 0.0 then -x else x }

  function Max(a: real, b: real): real { if a < b then b else a }

  function MaxInt(a: int, b: int): int { if a < b then b else a }

  function MinInt(a: int, b: int): int { if a < b then a else b }

  /** `x || d` on an optional number: an absent or zero value gives way to
      the default, any other value is kept. A non-zero default therefore
      never yields 0. */
  function OrDefault(x: Option<real>, d: real): (r: real)
    ensures x.None? || x.value == 0.0 ==> r == d
    ensures x.Some? && x.value != 0.0 ==> r == x.value
    ensures d != 0.0 ==> r != 0.0
  {
    if x.None? || x.value == 0.0 then d else x.value
  }

  /** `audioContext?.sampleRate || 44100`: a missing context or a falsy rate
      (0) falls back to 44100 Hz; any other rate is kept. */
  function SampleRate(contextRate: Option<real>): (rate: real)
    ensures rate != 0.0
    ensures contextRate.Some? && contextRate.value != 0.0 ==> rate == contextRate.value
    ensures contextRate.None? || contextRate.value == 0.0 ==> rate == DefaultSampleRate
  {
    OrDefault(contextRate, DefaultSampleRate)
  }

  /** `sqrt` is the non-negative square root on non-negative reals. */
  ghost predicate IsSqrt(sqrt: real -> real) {
    forall x :: 0.0 <= x ==> 0.0 <= sqrt(x) && sqrt(x) * sqrt(x) == x
  }

  /** `log10` is monotone on the positive reals and vanishes at 1. */
  ghost predicate IsLog10(log10: real -> real) {
    && log10(1.0) == 0.0
    && forall x, y :: 0.0 < x <= y ==> log10(x) <= log10(y)
  }

  /** A square root is monotone: it preserves the order of its arguments. */
  lemma SqrtMonotone(sqrt: real -> real, a: real, b: real)
    requires IsSqrt(sqrt)
    requires 0.0 <= a <= b
    ensures sqrt(a) <= sqrt(b)
  {
    var ra, rb := sqrt(a), sqrt(b);
    assert ra * ra == a && rb * rb == b && 0.0 <= ra && 0.0 <= rb;
    SquaresOrdered(rb, ra);
  }

  /** Comparing a root with a non-negative bound is the same as comparing
      squares. */
  lemma SqrtBelowIffSquareBelow(sqrt: real -> real, x: real, bound: real)
    requires IsSqrt(sqrt)
    requires 0.0 <= x && 0.0 <= bound
    ensures sqrt(x) < bound <==> x < bound * bound
  {
    var r := sqrt(x);
    assert 0.0 <= r && r * r == x;
    SquaresOrdered(r, bound);
  }

  /** On the non-negative reals, squaring preserves strict order both ways. */
  lemma SquaresOrdered(a: real, b: real)
    requires 0.0 <= a && 0.0 <= b
    ensures a < b <==> a * a < b * b
  {
    var aa, ab, bb := a * a, a * b, b * b;
    if a < b {
      assert aa <= ab;
      assert ab < bb;
    } else {
      assert bb <= ab;
      assert ab <= aa;
    }
  }

  /** A ratio of a non-negative numerator to a larger denominator lies in [0, 1]. */
  lemma RatioAtMostOne(s: real, n: real)
    requires 0.0 <= s <= n && 0.0 < n
    ensures 0.0 <= s / n <= 1.0
  {
    var q := s / n;
    assert q * n == s;
    CancelPositive(q, 1.0, n);
    CancelPositive(0.0, q, n);
  }

  /** A positive common factor can be cancelled from an inequality. */
  lemma CancelPositive(a: real, b: real, n: real)
    requires 0.0 < n && a * n <= b * n
    ensures a <= b
  {
  }
}
