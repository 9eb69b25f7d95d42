/** Pitch of one frame (`AudioAnalyzer.getPitch`): a silence gate on the
    mean square, then a scan over lags of an average-magnitude-difference
    "correlation" that locks on the first run of climbing correlations above
    0.9 and refines its last lag by a 3-point interpolation. */
module PitchDetection {
  import opened Common

  /** rms < 0.01, stated on squares: mean square < 0.0001. */
  const SilenceMeanSquare: real := 0.0001
  const SilenceRms: real := 0.01
  /** A lag is a candidate only if its correlation exceeds this. */
  const GoodCorrelation: real := 0.9
  /** The fallback needs the best correlation to exceed this. */
  const MinCorrelation: real := 0.01
  /** Sensitivity of the interpolated shift. */
  const InterpolationGain: real := 8.0

  /** A JavaScript division by a zero lag yields +Infinity. */
  datatype Pitch = Hz(value: real) | Infinity

  function SumOfSquares(x: seq<real>): real {
    if x == [] then 0.0 else SumOfSquares(x[..|x| - 1]) + x[|x| - 1] * x[|x| - 1]
  }

  /** The silence gate. An empty buffer is not silent: its RMS is NaN in
      JavaScript, and NaN < 0.01 is false. */
  predicate IsSilent(x: seq<real>) {
    |x| > 0 && SumOfSquares(x) / |x| as real < SilenceMeanSquare
  }

  lemma {:induction false} SumOfSquaresNonNegative(x: seq<real>)
    ensures 0.0 <= SumOfSquares(x)
  {
    if x != [] {
      SumOfSquaresNonNegative(x[..|x| - 1]);
    }
  }

  /** The gate on squares is the source's gate `sqrt(ms) < 0.01`. */
  lemma SilenceGateAsSquares(x: seq<real>, sqrt: real -> real)
    requires IsSqrt(sqrt) && |x| > 0
    ensures IsSilent(x) <==> sqrt(SumOfSquares(x) / |x| as real) < SilenceRms
  {
    SumOfSquaresNonNegative(x);
    var n := |x| as real;
    var q := SumOfSquares(x) / n;
    assert q * n == SumOfSquares(x);
    CancelPositive(0.0, q, n);
    SqrtBelowIffSquareBelow(sqrt, q, SilenceRms);
  }

  /** Sum of |x[i] - x[i + lag]| over the first n indices. */
  function AbsDiffSum(x: seq<real>, lag: nat, n: nat): (s: real)
    requires lag + n <= |x|
    ensures 0.0 <= s
  {
    if n == 0 then 0.0 else AbsDiffSum(x, lag, n - 1) + Abs(x[n - 1] - x[n - 1 + lag])
  }

  /** The normalized correlation of the buffer with itself shifted by lag. */
  function Correlation(x: seq<real>, lag: nat): real
    requires lag < |x|
  {
    1.0 - AbsDiffSum(x, lag, |x| - lag) / |x| as real
  }

  /** The correlation of every lag 0 .. |x| - 1. */
  function Correlations(x: seq<real>): seq<real> {
    seq(|x|, lag requires 0 <= lag < |x| => Correlation(x, lag))
  }

  lemma {:induction false} AbsDiffSumAtLagZero(x: seq<real>, n: nat)
    requires n <= |x|
    ensures AbsDiffSum(x, 0, n) == 0.0
  {
    if n > 0 {
      AbsDiffSumAtLagZero(x, n - 1);
    }
  }

  /** The lag-0 correlation is exactly 1. */
  lemma LagZeroIsPerfect(x: seq<real>)
    ensures |x| > 0 ==> Correlations(x)[0] == 1.0
  {
    if |x| > 0 {
      AbsDiffSumAtLagZero(x, |x|);
    }
  }

  /** No correlation exceeds 1. */
  lemma CorrelationsAtMostOne(x: seq<real>)
    ensures forall k :: 0 <= k < |x| ==> Correlations(x)[k] <= 1.0
  {
    forall k | 0 <= k < |x|
      ensures Correlations(x)[k] <= 1.0
    {
      var n := |x| as real;
      var s := AbsDiffSum(x, k, |x| - k);
      var q := s / n;
      assert q * n == s;
      CancelPositive(0.0, q, n);
    }
  }

  /** The shape every correlation profile has: 1 at lag 0, at most 1 elsewhere. */
  ghost predicate IsProfile(c: seq<real>) {
    && (|c| > 0 ==> c[0] == 1.0)
    && forall k :: 0 <= k < |c| ==> c[k] <= 1.0
  }

  /** What the scan relies on: lags 0 and 1 are never accepted. */
  predicate EarlyLagsRejected(c: seq<real>) {
    && (|c| > 0 ==> !Accepts(c, 0))
    && (|c| > 1 ==> !Accepts(c, 1))
  }

  lemma CorrelationsAreProfile(x: seq<real>)
    ensures IsProfile(Correlations(x))
  {
    LagZeroIsPerfect(x);
    CorrelationsAtMostOne(x);
  }

  /** The value of `lastCorrelation` when lag is examined: 1 before the
      first lag, the previous correlation afterwards. */
  function PreviousCorrelation(c: seq<real>, lag: nat): real
    requires lag < |c|
  {
    if lag == 0 then 1.0 else c[lag - 1]
  }

  /** A lag is accepted when its correlation is good and climbing. */
  predicate Accepts(c: seq<real>, lag: nat)
    requires lag < |c|
  {
    c[lag] > GoodCorrelation && c[lag] > PreviousCorrelation(c, lag)
  }

  /** Lags 0 and 1 are never accepted: lag 0 correlates to exactly 1,
      which is not above the initial `lastCorrelation` of 1, and lag 1 would
      have to climb above that 1. */
  lemma EarlyLagsNeverAccepted(c: seq<real>)
    requires IsProfile(c)
    ensures |c| > 0 ==> !Accepts(c, 0)
    ensures |c| > 1 ==> !Accepts(c, 1)
  {
    if |c| > 1 {
      assert c[1] <= 1.0;
    }
  }

  /** The first accepted lag at or after `from`, or |c| if there is none. */
  function FirstAccepted(c: seq<real>, from: nat): (k: nat)
    requires from <= |c|
    ensures from <= k <= |c|
    ensures k < |c| ==> Accepts(c, k)
    ensures forall j :: from <= j < k ==> !Accepts(c, j)
    decreases |c| - from
  {
    if from == |c| then |c|
    else if Accepts(c, from) then from
    else FirstAccepted(c, from + 1)
  }

  /** The first lag at or after `from` that is not accepted, or |c|. */
  function RunEnd(c: seq<real>, from: nat): (k: nat)
    requires from <= |c|
    ensures from <= k <= |c|
    ensures k < |c| ==> !Accepts(c, k)
    ensures forall j :: from <= j < k ==> Accepts(c, j)
    decreases |c| - from
  {
    if from == |c| then |c|
    else if !Accepts(c, from) then from
    else RunEnd(c, from + 1)
  }

  /** `sampleRate / (best + 8 * shift)`, where the shift is read from the
      correlations before, at and after the lag `best`. */
  function Refined(best: nat, before: real, at: real, after: real, sampleRate: real): Pitch
    requires at != 0.0
  {
    var shift := (after - before) / at;
    var lag := best as real + InterpolationGain * shift;
    if lag == 0.0 then Infinity else Hz(sampleRate / lag)
  }

  /** The refinement of lag `best` of the profile `c`. */
  function Interpolated(c: seq<real>, best: nat, sampleRate: real): Pitch
    requires 1 <= best && best + 1 < |c| && c[best] > GoodCorrelation
  {
    Refined(best, c[best - 1], c[best], c[best + 1], sampleRate)
  }

  /** The result of the lag scan over the correlations `c`: 0 when no lag
      is accepted; when the run of accepted lags that starts at the first
      accepted lag ends inside `c`, the interpolated last lag of the run;
      when the run reaches the last lag, sampleRate over that lag. */
  function ScanResult(c: seq<real>, sampleRate: real): Pitch
    requires EarlyLagsRejected(c)
  {
    var start := FirstAccepted(c, 0);
    if start == |c| then Hz(0.0)
    else
      var end := RunEnd(c, start);
      if end == |c| then Hz(sampleRate / (end - 1) as real)
      else
        assert Accepts(c, end - 1);
        Interpolated(c, end - 1, sampleRate)
  }

  /** The pitch of a buffer: 0 when silent, otherwise the scan result. */
  function PitchOf(x: seq<real>, sampleRate: real): Pitch {
    if IsSilent(x) then Hz(0.0)
    else
      CorrelationsAreProfile(x);
      EarlyLagsNeverAccepted(Correlations(x));
      ScanResult(Correlations(x), sampleRate)
  }

  /** When the run ends inside the profile, its last lag is at least 2, a
      strict climb from its predecessor, no lower than its successor and
      above 0.9: the interpolation divisor is non-zero and the three points
      it reads frame a peak. */
  lemma InterpolationFramesPeak(c: seq<real>)
    requires IsProfile(c)
    requires FirstAccepted(c, 0) < |c|
    requires RunEnd(c, FirstAccepted(c, 0)) < |c|
    ensures var best := RunEnd(c, FirstAccepted(c, 0)) - 1;
            && 2 <= best
            && c[best] > GoodCorrelation
            && c[best - 1] < c[best]
            && c[best + 1] <= c[best]
  {
    EarlyLagsNeverAccepted(c);
    var best := RunEnd(c, FirstAccepted(c, 0)) - 1;
    assert Accepts(c, best);
  }

  /** A non-zero scan result needs an accepted lag, and that lag is at
      least 2; the fallback `sampleRate / bestOffset` is reached only when
      the run is still climbing at the last lag. */
  lemma NonZeroScanNeedsAcceptedLag(c: seq<real>, sampleRate: real)
    requires IsProfile(c)
    requires ScanResult(c, sampleRate) != Hz(0.0)
    ensures var k := FirstAccepted(c, 0);
            2 <= k < |c| && c[k] > GoodCorrelation
    ensures RunEnd(c, FirstAccepted(c, 0)) == |c| ==> Accepts(c, |c| - 1)
  {
    EarlyLagsNeverAccepted(c);
  }

  /** One step of the scan: how the first accepted lag and the end of the
      run move when lag `k` is examined. */
  lemma ScanStep(c: seq<real>, k: nat)
    requires k < |c|
    ensures Accepts(c, k) ==> FirstAccepted(c, k) == k && RunEnd(c, k) == RunEnd(c, k + 1)
    ensures !Accepts(c, k) ==> FirstAccepted(c, k) == FirstAccepted(c, k + 1) && RunEnd(c, k) == k
  {
  }

  lemma ScanFindsNothing(c: seq<real>, sampleRate: real)
    requires EarlyLagsRejected(c) && FirstAccepted(c, 0) == |c|
    ensures ScanResult(c, sampleRate) == Hz(0.0)
  {
  }

  lemma ScanClimbsToLastLag(c: seq<real>, sampleRate: real)
    requires EarlyLagsRejected(c) && FirstAccepted(c, 0) < |c|
    requires RunEnd(c, FirstAccepted(c, 0)) == |c|
    ensures |c| >= 2
    ensures ScanResult(c, sampleRate) == Hz(sampleRate / (|c| - 1) as real)
  {
    assert FirstAccepted(c, 0) >= 2;
  }

  lemma ScanStopsAtDrop(c: seq<real>, sampleRate: real, end: nat)
    requires EarlyLagsRejected(c) && FirstAccepted(c, 0) < |c|
    requires RunEnd(c, FirstAccepted(c, 0)) == end < |c|
    ensures 2 <= end && c[end - 1] > GoodCorrelation
    ensures ScanResult(c, sampleRate) == Interpolated(c, end - 1, sampleRate)
  {
    assert Accepts(c, end - 1);
  }

  /** The first loop of `getPitch`: the sum of the squared samples. */
  method SquareSum(buffer: array<real>) returns (sum: real)
    ensures sum == SumOfSquares(buffer[..])
  {
    sum := 0.0;
    for i := 0 to buffer.Length
      invariant sum == SumOfSquares(buffer[..i])
    {
      assert buffer[..i + 1][..i] == buffer[..i];
      sum := sum + buffer[i] * buffer[i];
    }
    assert buffer[..buffer.Length] == buffer[..];
  }

  /** `c` holds the correlations of `x` at lags 0 .. |c| - 1. */
  ghost predicate IsProfileOf(x: seq<real>, c: seq<real>)
    decreases |c|
  {
    && |c| <= |x|
    && (c == [] || (IsProfileOf(x, c[..|c| - 1]) && c[|c| - 1] == Correlation(x, |c| - 1)))
  }

  lemma {:induction false} ProfileOfAt(x: seq<real>, c: seq<real>, k: nat)
    requires IsProfileOf(x, c) && k < |c|
    ensures c[k] == Correlation(x, k)
    decreases |c|
  {
    if k < |c| - 1 {
      ProfileOfAt(x, c[..|c| - 1], k);
    }
  }

  lemma {:induction false} CorrelationsAreProfileOf(x: seq<real>, n: nat)
    requires n <= |x|
    ensures IsProfileOf(x, Correlations(x)[..n])
  {
    if n > 0 {
      CorrelationsAreProfileOf(x, n - 1);
      assert Correlations(x)[..n][..n - 1] == Correlations(x)[..n - 1];
    }
  }

  /** The inner loop of `getPitch`: the correlation at one lag. */
  method LagCorrelation(buffer: array<real>, offset: nat, ghost c: seq<real>) returns (correlation: real)
    requires offset < |c| && IsProfileOf(buffer[..], c)
    ensures correlation == c[offset]
  {
    var size := buffer.Length;
    correlation := 0.0;
    for i := 0 to size - offset
      invariant correlation == AbsDiffSum(buffer[..], offset, i)
    {
      correlation := correlation + Abs(buffer[i] - buffer[i + offset]);
    }
    correlation := 1.0 - correlation / size as real;
    ProfileOfAt(buffer[..], c, offset);
  }

  /** `getPitch`. `buffer` is the float time-domain frame, null when there
      is no analyser; `contextRate` is the audio context's sample rate. */
  method GetPitch(buffer: array?<real>, contextRate: Option<real>) returns (pitch: Pitch)
    ensures buffer == null ==> pitch == Hz(0.0)
    ensures buffer != null ==> pitch == PitchOf(buffer[..], SampleRate(contextRate))
  {
    if buffer == null {
      return Hz(0.0);
    }
    var sampleRate := SampleRate(contextRate);
    var size := buffer.Length;
    var sum := SquareSum(buffer);
    if size > 0 && sum / size as real < SilenceMeanSquare {
      return Hz(0.0);
    }
    CorrelationsAreProfile(buffer[..]);
    EarlyLagsNeverAccepted(Correlations(buffer[..]));
    CorrelationsAreProfileOf(buffer[..], size);
    assert Correlations(buffer[..])[..size] == Correlations(buffer[..]);
    pitch := Scan(buffer, sampleRate, Correlations(buffer[..]));
  }

  /** The lag scan of `getPitch` on a buffer that passed the silence gate;
      `c` is the buffer's correlation profile. */
  method Scan(buffer: array<real>, sampleRate: real, ghost c: seq<real>) returns (pitch: Pitch)
    requires |c| == buffer.Length && IsProfileOf(buffer[..], c) && EarlyLagsRejected(c)
    ensures pitch == ScanResult(c, sampleRate)
  {
    var size := buffer.Length;
    var bestOffset := -1;
    var bestCorrelation := 0.0;
    var foundGoodCorrelation := false;
    var correlations := new real[size];

    ghost var start := 0;
    var lastCorrelation := 1.0;
    var offset := 0;
    while offset < size
      invariant 0 <= offset <= size
      invariant forall k :: 0 <= k < offset ==> correlations[k] == c[k]
      invariant offset == 0 ==> lastCorrelation == 1.0
      invariant 0 < offset ==> lastCorrelation == c[offset - 1]
      invariant !foundGoodCorrelation ==>
                  && bestOffset == -1 && bestCorrelation == 0.0
                  && FirstAccepted(c, 0) == FirstAccepted(c, offset)
      invariant foundGoodCorrelation ==>
                  && 1 <= start < offset
                  && start == FirstAccepted(c, 0)
                  && RunEnd(c, start) == RunEnd(c, offset)
                  && bestOffset == offset - 1
                  && bestCorrelation == c[bestOffset] > GoodCorrelation
    {
      var correlation := LagCorrelation(buffer, offset, c);
      correlations[offset] := correlation;
      ScanStep(c, offset);
      assert Accepts(c, offset) <==> correlation > GoodCorrelation && correlation > lastCorrelation;

      if correlation > GoodCorrelation && correlation > lastCorrelation {
        if !foundGoodCorrelation {
          start := offset;
        }
        foundGoodCorrelation := true;
        if correlation > bestCorrelation {
          bestCorrelation := correlation;
          bestOffset := offset;
        }
      } else if foundGoodCorrelation {
        ScanStopsAtDrop(c, sampleRate, offset);
        return Refined(bestOffset, correlations[bestOffset - 1], correlations[bestOffset],
                       correlations[bestOffset + 1], sampleRate);
      }
      lastCorrelation := correlation;
      offset := offset + 1;
    }

    if bestCorrelation > MinCorrelation {
      ScanClimbsToLastLag(c, sampleRate);
      return Hz(sampleRate / bestOffset as real);
    }
    ScanFindsNothing(c, sampleRate);
    return Hz(0.0);
  }
}
