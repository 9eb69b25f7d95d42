/** Loudness of one frame (`AudioAnalyzer.getVolume`): the RMS of the
    unsigned 8-bit time-domain samples, centred at 128, in decibels with a
    floor of -100 dB. Math.sqrt and Math.log10 are parameters that obey
    Common.IsSqrt and Common.IsLog10. */
module Loudness {
  import opened Common

  /** The silence floor, also the result for an empty buffer. */
  const FloorDb: real := -100.0

  /** Sample `t` of a byte buffer centred at 128, scaled by 1/128. */
  function Normalized(t: Byte): (x: real)
    ensures -1.0 <= x <= 127.0 / 128.0
  {
    (t - 128) as real / 128.0
  }

  /** The square of a value in [-1, 1] is at most 1. */
  lemma SquareAtMostOne(x: real)
    requires -1.0 <= x <= 1.0
    ensures x * x <= 1.0
  {
    if x >= 0.0 {
      assert x * x <= x * 1.0;
    } else {
      var y := -x;
      assert y * y <= y * 1.0;
      assert x * x == y * y;
    }
  }

  /** Sum of the squared normalized samples, accumulated left to right. */
  function NormalizedEnergy(t: seq<Byte>): (sum: real)
    ensures 0.0 <= sum <= |t| as real
  {
    if t == [] then 0.0
    else
      var x := Normalized(t[|t| - 1]);
      SquareAtMostOne(x);
      NormalizedEnergy(t[..|t| - 1]) + x * x
  }

  /** `Math.max(-100, 20 * Math.log10(rms))`; log10(0) is -Infinity in
      JavaScript, so a zero RMS gives the floor. */
  function Decibels(rms: real, log10: real -> real): real
    requires 0.0 <= rms
  {
    if rms == 0.0 then FloorDb else Max(FloorDb, 20.0 * log10(rms))
  }

  /** The loudness of the byte buffer `t`. */
  function Volume(t: seq<Byte>, sqrt: real -> real, log10: real -> real): real
    requires IsSqrt(sqrt)
  {
    if |t| == 0 then FloorDb
    else Decibels(sqrt(NormalizedEnergy(t) / |t| as real), log10)
  }

  /** The mean square of a non-empty buffer is at most 1. */
  lemma MeanSquareAtMostOne(t: seq<Byte>)
    requires |t| > 0
    ensures 0.0 <= NormalizedEnergy(t) / |t| as real <= 1.0
  {
    RatioAtMostOne(NormalizedEnergy(t), |t| as real);
  }

  /** Every loudness lies between the floor and 0 dB. */
  lemma VolumeInRange(t: seq<Byte>, sqrt: real -> real, log10: real -> real)
    requires IsSqrt(sqrt) && IsLog10(log10)
    ensures FloorDb <= Volume(t, sqrt, log10) <= 0.0
  {
    if |t| > 0 {
      var ms := NormalizedEnergy(t) / |t| as real;
      MeanSquareAtMostOne(t);
      SqrtMonotone(sqrt, ms, 1.0);
      SqrtMonotone(sqrt, 1.0, 1.0);
      assert sqrt(1.0) == 1.0 by { SquaresOrdered(sqrt(1.0), 1.0); SquaresOrdered(1.0, sqrt(1.0)); }
      var rms := sqrt(ms);
      if rms > 0.0 {
        assert log10(rms) <= log10(1.0);
      }
    }
  }

  /** A buffer with no more energy per sample is never louder. */
  lemma VolumeMonotone(t: seq<Byte>, u: seq<Byte>, sqrt: real -> real, log10: real -> real)
    requires IsSqrt(sqrt) && IsLog10(log10)
    requires |t| > 0 && |u| > 0
    requires NormalizedEnergy(t) / |t| as real <= NormalizedEnergy(u) / |u| as real
    ensures Volume(t, sqrt, log10) <= Volume(u, sqrt, log10)
  {
    var mt, mu := NormalizedEnergy(t) / |t| as real, NormalizedEnergy(u) / |u| as real;
    SqrtMonotone(sqrt, mt, mu);
    var rt, ru := sqrt(mt), sqrt(mu);
    if rt > 0.0 {
      assert log10(rt) <= log10(ru);
    }
  }

  /** `getVolume` on the buffer that `getTimeDomainData` returned (empty
      when there is no analyser). */
  method GetVolume(timeData: array<Byte>, sqrt: real -> real, log10: real -> real) returns (db: real)
    requires IsSqrt(sqrt)
    ensures db == Volume(timeData[..], sqrt, log10)
    ensures timeData.Length == 0 ==> db == FloorDb
    ensures IsLog10(log10) ==> FloorDb <= db <= 0.0
  {
    if timeData.Length == 0 {
      return FloorDb;
    }
    var sum := 0.0;
    for i := 0 to timeData.Length
      invariant sum == NormalizedEnergy(timeData[..i])
    {
      var x := Normalized(timeData[i]);
      assert timeData[..i + 1][..i] == timeData[..i];
      sum := sum + x * x;
    }
    assert timeData[..timeData.Length] == timeData[..];
    var rms := sqrt(sum / timeData.Length as real);
    db := Decibels(rms, log10);
    if IsLog10(log10) {
      VolumeInRange(timeData[..], sqrt, log10);
    }
  }
}
