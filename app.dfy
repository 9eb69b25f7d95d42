/** The session logic of the App component: while recording, each frame's
    pitch, volume and formants are screened and the usable values are
    collected; a new session empties the collection; when the session ends
    the collected values are averaged into the summary sent for analysis. */
module App {
  import opened Common

  datatype AnalysisStatus = Idle | Guiding | Recording | Processing | Completed | Error

  /** Frames at or below this pitch (Hz) are treated as silence or noise. */
  const MinPitch: real := 50.0
  /** Frames at or below this volume (dB) are treated as silence or noise. */
  const MinVolume: real := -40.0

  /** The gate of `updateMetrics` that decides whether a frame is stored. */
  predicate FrameAccepted(pitch: real, volume: real) {
    pitch > MinPitch && volume > MinVolume
  }

  /** `arr.reduce((a, b) => a + b, 0)`: the sum, accumulated left to right. */
  function Sum(xs: seq<real>): real {
    if xs == [] then 0.0 else Sum(xs[..|xs| - 1]) + xs[|xs| - 1]
  }

  /** The smallest element of a non-empty list. */
  function SeqMin(xs: seq<real>): (m: real)
    requires |xs| > 0
    ensures m in xs
    ensures forall i :: 0 <= i < |xs| ==> m <= xs[i]
  {
    if |xs| == 1 then xs[0]
    else
      var rest := SeqMin(xs[1..]);
      assert forall i :: 1 <= i < |xs| ==> xs[i] == xs[1..][i - 1];
      if xs[0] <= rest then xs[0] else rest
  }

  /** The largest element of a non-empty list. */
  function SeqMax(xs: seq<real>): (m: real)
    requires |xs| > 0
    ensures m in xs
    ensures forall i :: 0 <= i < |xs| ==> xs[i] <= m
  {
    if |xs| == 1 then xs[0]
    else
      var rest := SeqMax(xs[1..]);
      assert forall i :: 1 <= i < |xs| ==> xs[i] == xs[1..][i - 1];
      if rest <= xs[0] then xs[0] else rest
  }

  /** A sum of n values that each lie in [lo, hi] lies in [n * lo, n * hi]. */
  lemma {:induction false} SumBetween(xs: seq<real>, lo: real, hi: real)
    requires forall i :: 0 <= i < |xs| ==> lo <= xs[i] <= hi
    ensures |xs| as real * lo <= Sum(xs) <= |xs| as real * hi
  {
    if xs != [] {
      var init, last := xs[..|xs| - 1], xs[|xs| - 1];
      assert forall i :: 0 <= i < |init| ==> init[i] == xs[i];
      SumBetween(init, lo, hi);
      var n, s := |init| as real, Sum(init);
      assert Sum(xs) == s + last;
      assert n * lo <= s <= n * hi && lo <= last <= hi;
      assert |xs| as real * lo == n * lo + lo;
      assert |xs| as real * hi == n * hi + hi;
    }
  }

  /** A sum of n > 0 values that each exceed b exceeds n * b. */
  lemma {:induction false} SumAbove(xs: seq<real>, b: real)
    requires |xs| > 0
    requires forall i :: 0 <= i < |xs| ==> b < xs[i]
    ensures |xs| as real * b < Sum(xs)
  {
    var init := xs[..|xs| - 1];
    assert forall i :: 0 <= i < |init| ==> init[i] == xs[i];
    if init == [] {
      assert Sum(xs) == xs[0];
    } else {
      SumAbove(init, b);
      var n := |init| as real;
      assert (n + 1.0) * b == n * b + b;
    }
  }

  /** Dividing n * lo <= s <= n * hi by a positive n. */
  lemma QuotientBetween(s: real, n: real, lo: real, hi: real)
    requires 0.0 < n && n * lo <= s <= n * hi
    ensures lo <= s / n <= hi
  {
    var q := s / n;
    assert q * n == s;
    CancelPositive(lo, q, n);
    CancelPositive(q, hi, n);
  }

  /** The mean of n > 0 values that each lie in [lo, hi] lies in [lo, hi]. */
  lemma MeanBetween(xs: seq<real>, lo: real, hi: real)
    requires |xs| > 0
    requires forall i :: 0 <= i < |xs| ==> lo <= xs[i] <= hi
    ensures lo <= Sum(xs) / |xs| as real <= hi
  {
    SumBetween(xs, lo, hi);
    QuotientBetween(Sum(xs), |xs| as real, lo, hi);
  }

  /** `calculateAverage`: 0 for an empty list, otherwise the arithmetic
      mean, which lies between the smallest and the largest element. */
  function Average(xs: seq<real>): (avg: real)
    ensures |xs| == 0 ==> avg == 0.0
    ensures |xs| > 0 ==> SeqMin(xs) <= avg <= SeqMax(xs)
  {
    if |xs| == 0 then 0.0
    else
      MeanBetween(xs, SeqMin(xs), SeqMax(xs));
      Sum(xs) / |xs| as real
  }

  /** The mean of values that all exceed b exceeds b. */
  lemma AverageAbove(xs: seq<real>, b: real)
    requires forall i :: 0 <= i < |xs| ==> b < xs[i]
    ensures |xs| > 0 ==> b < Average(xs)
  {
    if |xs| > 0 {
      var n := |xs| as real;
      SumAbove(xs, b);
      var avg := Sum(xs) / n;
      assert avg * n == Sum(xs);
      assert b * n < avg * n;
    }
  }

  /** The averages handed to the AI analysis. */
  datatype SessionSummary = SessionSummary(avgPitch: real, avgF1: real, avgF2: real)

  /** `collectedMetricsRef`: the values gathered during one session. */
  class MetricCollector {
    var pitches: seq<real>
    var f1s: seq<real>
    var f2s: seq<real>

    /** Every stored pitch passed the gate, every stored formant is
        positive, and a formant is stored only with a pitch of its frame. */
    ghost predicate Valid()
      reads this
    {
      && |f1s| <= |pitches|
      && |f2s| <= |pitches|
      && (forall i :: 0 <= i < |pitches| ==> pitches[i] > MinPitch)
      && (forall i :: 0 <= i < |f1s| ==> f1s[i] > 0.0)
      && (forall i :: 0 <= i < |f2s| ==> f2s[i] > 0.0)
    }

    constructor()
      ensures Valid()
      ensures pitches == [] && f1s == [] && f2s == []
    {
      pitches := [];
      f1s := [];
      f2s := [];
    }

    /** The reset performed when a new session starts. */
    method Reset()
      modifies this
      ensures Valid()
      ensures pitches == [] && f1s == [] && f2s == []
    {
      pitches := [];
      f1s := [];
      f2s := [];
    }

    /** The collection step of `updateMetrics` for one frame: nothing is
        collected unless the app is recording; a frame that passes the
        pitch/volume gate stores its pitch, and each of its formants that
        is positive. */
    method UpdateMetrics(status: AnalysisStatus, pitch: real, volume: real, f1: real, f2: real)
      requires Valid()
      modifies this
      ensures Valid()
      ensures var stored := status == Recording && FrameAccepted(pitch, volume);
              && pitches == old(pitches) + (if stored then [pitch] else [])
              && f1s == old(f1s) + (if stored && f1 > 0.0 then [f1] else [])
              && f2s == old(f2s) + (if stored && f2 > 0.0 then [f2] else [])
    {
      if status == Recording {
        if pitch > MinPitch && volume > MinVolume {
          pitches := pitches + [pitch];
          if f1 > 0.0 {
            f1s := f1s + [f1];
          }
          if f2 > 0.0 {
            f2s := f2s + [f2];
          }
        }
      }
    }

    /** The averages computed in `performGeminiAnalysis`: the mean pitch is
        0 when nothing was collected and otherwise above 50 Hz; each mean
        formant is 0 or positive, and lies within the collected range. */
    function Summary(): (s: SessionSummary)
      reads this
      requires Valid()
      ensures s.avgPitch == 0.0 <==> pitches == []
      ensures pitches != [] ==> MinPitch < s.avgPitch && SeqMin(pitches) <= s.avgPitch <= SeqMax(pitches)
      ensures s.avgF1 == 0.0 <==> f1s == []
      ensures f1s != [] ==> 0.0 < s.avgF1 && SeqMin(f1s) <= s.avgF1 <= SeqMax(f1s)
      ensures s.avgF2 == 0.0 <==> f2s == []
      ensures f2s != [] ==> 0.0 < s.avgF2 && SeqMin(f2s) <= s.avgF2 <= SeqMax(f2s)
    {
      AverageAbove(pitches, MinPitch);
      AverageAbove(f1s, 0.0);
      AverageAbove(f2s, 0.0);
      SessionSummary(Average(pitches), Average(f1s), Average(f2s))
    }
  }
}
