/** Formant estimate of one frame (`AudioAnalyzer.getFormants`): an 11-bin
    moving average of the byte spectrum, the strict local maxima of that
    envelope above 30 from bin 5 on, scaled to Hz by twice the bin width,
    and the first of them inside the F1 and F2 bands. */
module FormantDetection {
  import opened Common

  /** The smoothing window reaches this many bins to each side. */
  const HalfWindow: nat := 5
  /** Bins below this are DC and rumble and are never peaks. */
  const FirstPeakBin: nat := 5
  /** An envelope value must exceed this to be a peak. */
  const PeakThreshold: real := 30.0
  /** Empirical correction applied to the bin frequency. */
  const BinScale: real := 2.0
  /** Open bands, in Hz, searched for the first and second formant. */
  const F1Low: real := 250.0
  const F1High: real := 900.0
  const F2Low: real := 950.0
  const F2High: real := 2500.0

  datatype Formants = Formants(f1: real, f2: real)

  /** s[lo] + ... + s[hi - 1], accumulated left to right. */
  function RangeSum(s: seq<Byte>, lo: nat, hi: nat): (sum: int)
    requires hi <= |s|
    ensures 0 <= sum <= 255 * (if lo <= hi then hi - lo else 0)
    decreases hi
  {
    if hi <= lo then 0 else RangeSum(s, lo, hi - 1) + s[hi - 1]
  }

  /** First bin of the window around bin i, clipped at the low edge. */
  function WindowStart(i: nat): (lo: nat)
    ensures lo <= i && i - lo <= HalfWindow
  {
    MaxInt(0, i - HalfWindow)
  }

  /** One past the last bin of the window around bin i, clipped at n. */
  function WindowEnd(n: nat, i: nat): (hi: nat)
    requires i < n
    ensures i < hi <= n && hi - i <= HalfWindow + 1
  {
    MinInt(n, i + HalfWindow + 1)
  }

  /** A mean of values that are each at most 255 is at most 255. */
  lemma MeanOfBytes(sum: int, count: nat)
    requires 0 < count && 0 <= sum <= 255 * count
    ensures 0.0 <= sum as real / count as real <= 255.0
  {
    var n := count as real;
    var q := sum as real / n;
    assert q * n == sum as real;
    CancelPositive(q, 255.0, n);
    CancelPositive(0.0, q, n);
  }

  /** The envelope at bin i: the mean of the spectrum over the window
      around i that lies inside the spectrum. The window always holds bin i,
      so the count is at least 1 and the mean is a byte value. */
  function EnvelopeAt(s: seq<Byte>, i: nat): (e: real)
    requires i < |s|
    ensures 0.0 <= e <= 255.0
  {
    var lo, hi := WindowStart(i), WindowEnd(|s|, i);
    MeanOfBytes(RangeSum(s, lo, hi), hi - lo);
    RangeSum(s, lo, hi) as real / (hi - lo) as real
  }

  function Envelope(s: seq<Byte>): (env: seq<real>)
    ensures |env| == |s|
  {
    seq(|s|, i requires 0 <= i < |s| => EnvelopeAt(s, i))
  }

  /** Bin i of env is a strict local maximum above the threshold. */
  predicate IsPeak(env: seq<real>, i: nat) {
    && 1 <= i < |env| - 1
    && env[i] > env[i - 1]
    && env[i] > env[i + 1]
    && env[i] > PeakThreshold
  }

  /** The peak bins among FirstPeakBin .. hi - 1, in ascending order. */
  function PeakBins(env: seq<real>, hi: nat): (bins: seq<nat>)
    ensures forall k :: k in bins <==> FirstPeakBin <= k < hi && IsPeak(env, k)
    ensures forall a, b :: 0 <= a < b < |bins| ==> bins[a] < bins[b]
  {
    if hi <= FirstPeakBin then []
    else
      var below := PeakBins(env, hi - 1);
      assert forall a :: 0 <= a < |below| ==> below[a] in below;
      if IsPeak(env, hi - 1) then below + [hi - 1] else below
  }

  /** The peaks the source collects: every bin from 5 up to the one before
      the last. */
  function EnvelopePeaks(env: seq<real>): seq<nat> {
    PeakBins(env, MaxInt(0, |env| - 1))
  }

  /** The frequency reported for each bin. */
  function Frequencies(bins: seq<nat>, binSize: real): (f: seq<real>)
    ensures |f| == |bins|
  {
    seq(|bins|, j requires 0 <= j < |bins| => bins[j] as real * binSize * BinScale)
  }

  /** Whether f lies strictly inside the band (lo, hi). */
  predicate InBand(f: real, lo: real, hi: real) {
    lo < f < hi
  }

  /** `Array.prototype.find` on a band: the index of the first element of
      `fs` at or after `from` inside (lo, hi), or |fs| when there is none. */
  function FirstInBand(fs: seq<real>, lo: real, hi: real, from: nat): (i: nat)
    requires from <= |fs|
    ensures from <= i <= |fs|
    ensures i < |fs| ==> InBand(fs[i], lo, hi)
    ensures forall j :: from <= j < i ==> !InBand(fs[j], lo, hi)
    decreases |fs| - from
  {
    if from == |fs| then |fs|
    else if InBand(fs[from], lo, hi) then from
    else FirstInBand(fs, lo, hi, from + 1)
  }

  /** `fs.find(f => lo < f && f < hi) || 0`. */
  function BandFormant(fs: seq<real>, lo: real, hi: real): real {
    var i := FirstInBand(fs, lo, hi, 0);
    if i < |fs| then fs[i] else 0.0
  }

  /** The formants of the byte spectrum `s` at the given sample rate and
      FFT size. */
  function FormantsOf(s: seq<Byte>, sampleRate: real, fftSize: nat): Formants
    requires fftSize > 0
  {
    var binSize := sampleRate / fftSize as real;
    var fs := Frequencies(EnvelopePeaks(Envelope(s)), binSize);
    Formants(BandFormant(fs, F1Low, F1High), BandFormant(fs, F2Low, F2High))
  }

  /** Every peak lies at bin 5 or above and before the last bin, is a strict
      local maximum of the envelope and exceeds 30; the peaks are in
      ascending bin order. */
  lemma PeaksAreLocalMaxima(env: seq<real>)
    ensures forall k :: k in EnvelopePeaks(env) <==>
              && FirstPeakBin <= k <= |env| - 2
              && env[k - 1] < env[k] && env[k + 1] < env[k] && env[k] > PeakThreshold
    ensures forall a, b :: 0 <= a < b < |EnvelopePeaks(env)| ==>
              EnvelopePeaks(env)[a] < EnvelopePeaks(env)[b]
  {
    var hi := MaxInt(0, |env| - 1);
    forall k
      ensures k in EnvelopePeaks(env) <==>
              && FirstPeakBin <= k <= |env| - 2
              && env[k - 1] < env[k] && env[k + 1] < env[k] && env[k] > PeakThreshold
    {
      assert k in PeakBins(env, hi) <==> FirstPeakBin <= k < hi && IsPeak(env, k);
    }
  }

  /** With a positive bin width, peak frequencies ascend with the bins. */
  lemma {:induction false} FrequenciesAscend(bins: seq<nat>, binSize: real)
    requires binSize > 0.0
    requires forall a, b :: 0 <= a < b < |bins| ==> bins[a] < bins[b]
    ensures forall a, b :: 0 <= a < b < |bins| ==>
              Frequencies(bins, binSize)[a] < Frequencies(bins, binSize)[b]
  {
    var f := Frequencies(bins, binSize);
    forall a, b | 0 <= a < b < |bins|
      ensures f[a] < f[b]
    {
      var x, y := bins[a] as real, bins[b] as real;
      assert x < y;
      var sx, sy := x * binSize, y * binSize;
      assert sx < sy;
      assert f[a] == sx * BinScale && f[b] == sy * BinScale;
    }
  }

  /** The band formant is 0 exactly when no element is inside the band;
      otherwise it is inside the band, belongs to `fs`, and no smaller
      element of `fs` is inside the band when `fs` ascends. */
  lemma {:induction false} BandFormantIsLowestInBand(fs: seq<real>, lo: real, hi: real)
    requires 0.0 <= lo
    requires forall a, b :: 0 <= a < b < |fs| ==> fs[a] < fs[b]
    ensures var r := BandFormant(fs, lo, hi);
            && (r == 0.0 <==> forall j :: 0 <= j < |fs| ==> !InBand(fs[j], lo, hi))
            && (r != 0.0 ==> r in fs && InBand(r, lo, hi))
            && (r != 0.0 ==> forall j :: 0 <= j < |fs| && InBand(fs[j], lo, hi) ==> r <= fs[j])
  {
    var i := FirstInBand(fs, lo, hi, 0);
    if i < |fs| {
      forall j | 0 <= j < |fs| && InBand(fs[j], lo, hi)
        ensures fs[i] <= fs[j]
      {
        if i < j {
          assert fs[i] < fs[j];
        }
      }
    }
  }

  /** F1 is 0 or the lowest peak frequency in (250, 900), and F2 is 0 or the
      lowest peak frequency in (950, 2500); each is 0 exactly when its band
      holds no peak. */
  lemma FormantsAreLowestPeaksInBand(s: seq<Byte>, sampleRate: real, fftSize: nat)
    requires fftSize > 0 && sampleRate > 0.0
    ensures var r := FormantsOf(s, sampleRate, fftSize);
            var fs := Frequencies(EnvelopePeaks(Envelope(s)), sampleRate / fftSize as real);
            && (r.f1 == 0.0 <==> forall j :: 0 <= j < |fs| ==> !InBand(fs[j], F1Low, F1High))
            && (r.f1 != 0.0 ==> r.f1 in fs && InBand(r.f1, F1Low, F1High))
            && (r.f1 != 0.0 ==> forall j :: 0 <= j < |fs| && InBand(fs[j], F1Low, F1High) ==> r.f1 <= fs[j])
            && (r.f2 == 0.0 <==> forall j :: 0 <= j < |fs| ==> !InBand(fs[j], F2Low, F2High))
            && (r.f2 != 0.0 ==> r.f2 in fs && InBand(r.f2, F2Low, F2High))
            && (r.f2 != 0.0 ==> forall j :: 0 <= j < |fs| && InBand(fs[j], F2Low, F2High) ==> r.f2 <= fs[j])
  {
    var binSize := sampleRate / fftSize as real;
    var n := fftSize as real;
    assert binSize * n == sampleRate;
    var bins := EnvelopePeaks(Envelope(s));
    FrequenciesAscend(bins, binSize);
    var fs := Frequencies(bins, binSize);
    BandFormantIsLowestInBand(fs, F1Low, F1High);
    BandFormantIsLowestInBand(fs, F2Low, F2High);
  }

  lemma FrequenciesAppend(bins: seq<nat>, k: nat, binSize: real)
    ensures Frequencies(bins + [k], binSize) == Frequencies(bins, binSize) + [k as real * binSize * BinScale]
  {
    var l, r := Frequencies(bins + [k], binSize), Frequencies(bins, binSize) + [k as real * binSize * BinScale];
    forall j | 0 <= j < |l|
      ensures l[j] == r[j]
    {
      if j < |bins| {
        assert (bins + [k])[j] == bins[j];
      }
    }
  }

  /** The smoothing loop of `getFormants`: a fresh envelope array holding
      the windowed mean of every bin. The spectrum is only read. */
  method Smooth(spectrum: array<Byte>) returns (envelope: array<real>)
    ensures fresh(envelope)
    ensures envelope[..] == Envelope(spectrum[..])
  {
    var n := spectrum.Length;
    envelope := new real[n];
    for i := 0 to n
      invariant forall k :: 0 <= k < i ==> envelope[k] == EnvelopeAt(spectrum[..], k)
    {
      var lo := WindowStart(i);
      var sum: int := 0;
      var count: int := 0;
      for w := -(HalfWindow as int) to HalfWindow as int + 1
        invariant sum == RangeSum(spectrum[..], lo, MaxInt(lo, MinInt(n, i + w)))
        invariant count == MaxInt(lo, MinInt(n, i + w)) - lo
      {
        if 0 <= i + w < n {
          sum := sum + spectrum[i + w];
          count := count + 1;
        }
      }
      envelope[i] := sum as real / count as real;
    }
  }

  /** The peak loop of `getFormants`: the frequencies of the envelope's
      peaks, in ascending bin order. */
  method CollectPeaks(envelope: array<real>, binSize: real) returns (peaks: seq<real>)
    ensures peaks == Frequencies(EnvelopePeaks(envelope[..]), binSize)
  {
    peaks := [];
    var i := FirstPeakBin;
    while i < envelope.Length - 1
      invariant FirstPeakBin <= i <= MaxInt(FirstPeakBin, envelope.Length - 1)
      invariant peaks == Frequencies(PeakBins(envelope[..], i), binSize)
    {
      ghost var bins := PeakBins(envelope[..], i);
      if envelope[i] > envelope[i - 1] && envelope[i] > envelope[i + 1] && envelope[i] > PeakThreshold {
        assert IsPeak(envelope[..], i);
        peaks := peaks + [i as real * binSize * BinScale];
        FrequenciesAppend(bins, i, binSize);
      } else {
        assert !IsPeak(envelope[..], i);
      }
      i := i + 1;
    }
    assert PeakBins(envelope[..], i) == EnvelopePeaks(envelope[..]) by {
      if envelope.Length - 1 < FirstPeakBin {
        assert PeakBins(envelope[..], MaxInt(0, envelope.Length - 1)) == [];
      }
    }
  }

  /** `getFormants`. `spectrum` is the byte spectrum just read from the
      analyser, null when there is no analyser or data array;
      `contextRate` is the audio context's sample rate and `fftSize` the
      analyser's FFT size. */
  method GetFormants(spectrum: array?<Byte>, contextRate: Option<real>, fftSize: nat) returns (r: Formants)
    requires fftSize > 0
    ensures spectrum == null ==> r == Formants(0.0, 0.0)
    ensures spectrum != null ==> r == FormantsOf(spectrum[..], SampleRate(contextRate), fftSize)
  {
    if spectrum == null {
      return Formants(0.0, 0.0);
    }
    var sampleRate := SampleRate(contextRate);
    var binSize := sampleRate / fftSize as real;
    var envelope := Smooth(spectrum);
    var peaks := CollectPeaks(envelope, binSize);
    var f1 := BandFormant(peaks, F1Low, F1High);
    var f2 := BandFormant(peaks, F2Low, F2High);
    r := Formants(f1, f2);
  }
}
