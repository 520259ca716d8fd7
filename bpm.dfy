/**
 * AudioAnalyzer.detectBPM: a crude tempo estimate that counts amplitude
 * peaks of channel 0 with a 300 ms refractory period.
 */
module BpmDetector {
  import opened AudioBuffers

  const Threshold: real := 0.3

  /** Sample i is above the threshold (signed, not absolute) and strictly above both neighbours. */
  predicate IsCandidate(s: seq<real>, i: nat)
    requires 1 <= i && i + 1 < |s|
  {
    s[i] > Threshold && s[i] > s[i - 1] && s[i] > s[i + 1]
  }

  /** More than `0.3 * sampleRate` samples lie between `last` and `i` (scaled by ten to stay in integers). */
  predicate FarEnough(i: nat, last: nat, rate: nat) {
    10 * (i - last) > 3 * rate
  }

  /** The integer form above is exactly the source's comparison `i - lastPeak > sampleRate * 0.3`. */
  lemma FarEnoughIsRefractory(i: nat, last: nat, rate: nat)
    ensures FarEnough(i, last, rate) <==> (i - last) as real > rate as real * 0.3
  {
  }

  function LastOr0(p: seq<nat>): nat {
    if p == [] then 0 else p[|p| - 1]
  }

  /** The peaks counted while scanning indices 1 .. hi-1, in scan order. */
  function Peaks(s: seq<real>, rate: nat, hi: nat): (p: seq<nat>)
    requires hi <= 1 || hi < |s|
    ensures forall k :: 0 <= k < |p| ==> 1 <= p[k] < hi && IsCandidate(s, p[k])
    ensures p != [] ==> FarEnough(p[0], 0, rate)
    ensures forall k :: 0 < k < |p| ==> FarEnough(p[k], p[k - 1], rate) && p[k - 1] < p[k]
    decreases hi
  {
    if hi <= 1 then []
    else
      var prev := Peaks(s, rate, hi - 1);
      if IsCandidate(s, hi - 1) && FarEnough(hi - 1, LastOr0(prev), rate) then prev + [hi - 1] else prev
  }

  /** The peaks counted over the whole scan, `1 <= i < |s| - 1`. */
  function CountedPeaks(s: seq<real>, rate: nat): seq<nat> {
    Peaks(s, rate, if |s| >= 2 then |s| - 1 else 1)
  }

  /** `Math.round`: the nearest integer, halves rounded up. */
  function Round(x: real): (r: int)
    ensures r as real - 0.5 <= x < r as real + 0.5
  {
    (x + 0.5).Floor
  }

  /** `Math.max(60, Math.min(200, v))`. */
  function ClampBpm(v: int): (r: int)
    ensures 60 <= r <= 200
    ensures 60 <= v <= 200 ==> r == v
    ensures v < 60 ==> r == 60
    ensures v > 200 ==> r == 200
  {
    if v < 60 then 60 else if v > 200 then 200 else v
  }

  /** The tempo reported for `peaks` counted peaks in a buffer of the given duration. */
  function BpmOf(peaks: nat, duration: real): int
    requires duration > 0.0
  {
    ClampBpm(Round(peaks as real / duration * 60.0))
  }

  method DetectBpm(b: AudioBuffer) returns (bpm: int)
    requires b.Valid()
    ensures bpm == BpmOf(|CountedPeaks(b.Left(), b.sampleRate)|, b.Duration())
    ensures 60 <= bpm <= 200
  {
    var peaks := CountPeaks(b.Left(), b.sampleRate);
    var duration := b.Duration();
    var raw := Round((peaks as real / duration) * 60.0);
    bpm := ClampBpm(raw);
  }

  /** The scan of `detectBPM`: the number of peaks it counts in `samples`. */
  method CountPeaks(samples: seq<real>, rate: nat) returns (peaks: nat)
    ensures peaks == |CountedPeaks(samples, rate)|
  {
    peaks := 0;
    var lastPeak: nat := 0;
    var i := 1;
    while i < |samples| - 1
      invariant 1 <= i && (i == 1 || i <= |samples| - 1)
      invariant peaks == |Peaks(samples, rate, i)| && lastPeak == LastOr0(Peaks(samples, rate, i))
    {
      if samples[i] > Threshold && samples[i] > samples[i - 1] && samples[i] > samples[i + 1] {
        FarEnoughIsRefractory(i, lastPeak, rate);
        if (i - lastPeak) as real > rate as real * 0.3 {
          peaks := peaks + 1;
          lastPeak := i;
        }
      }
      i := i + 1;
    }
  }

  /**
   * A peak candidate that was not counted lies within the refractory period
   * of the peak counted last before it (or of index 0).
   */
  lemma {:induction false} SkippedCandidateIsTooClose(s: seq<real>, rate: nat, hi: nat, i: nat)
    requires hi <= 1 || hi < |s|
    requires 1 <= i < hi && IsCandidate(s, i)
    requires i !in Peaks(s, rate, hi)
    ensures !FarEnough(i, LastOr0(Peaks(s, rate, i)), rate)
  {
    if i < hi - 1 {
      SkippedCandidateIsTooClose(s, rate, hi - 1, i);
    }
  }

  /** Every element of `p` lies beyond its own rank times `g / 10`. */
  predicate Spread(p: seq<nat>, g: nat) {
    forall k :: 0 <= k < |p| ==> 10 * p[k] > (k + 1) * g
  }

  /** Counted peaks are spread out: the k-th lies beyond k+1 refractory periods. */
  lemma {:induction false} PeaksSpread(s: seq<real>, rate: nat, hi: nat)
    requires hi <= 1 || hi < |s|
    ensures Spread(Peaks(s, rate, hi), 3 * rate)
  {
    var g := 3 * rate;
    if hi > 1 {
      PeaksSpread(s, rate, hi - 1);
      var prev := Peaks(s, rate, hi - 1);
      var p := Peaks(s, rate, hi);
      if p != prev {
        assert p == prev + [hi - 1];
        SpreadAppend(prev, hi - 1, g);
      }
    }
  }

  /** A position more than `g / 10` past the last one keeps a spread sequence spread. */
  lemma SpreadAppend(prev: seq<nat>, x: nat, g: nat)
    requires Spread(prev, g)
    requires 10 * (x - LastOr0(prev)) > g
    ensures Spread(prev + [x], g)
  {
    var n := |prev|;
    var p := prev + [x];
    if n > 0 {
      assert 10 * prev[n - 1] > n * g;
      assert (n + 1) * g == n * g + g;
    }
    forall k | 0 <= k < |p| ensures 10 * p[k] > (k + 1) * g {
      if k < n { assert p[k] == prev[k]; }
    }
  }

  /** Fewer peaks fit than refractory periods fit in the buffer. */
  lemma PeakCountBound(b: AudioBuffer)
    requires b.Valid()
    ensures |CountedPeaks(b.Left(), b.sampleRate)| * (3 * b.sampleRate) < 10 * b.length
  {
    var s := b.Left();
    var p := CountedPeaks(s, b.sampleRate);
    var n := |p|;
    PeaksSpread(s, b.sampleRate, if |s| >= 2 then |s| - 1 else 1);
    if p != [] {
      assert 10 * p[n - 1] > (n - 1 + 1) * (3 * b.sampleRate);
      assert p[n - 1] < |s|;
    }
  }

  lemma RateBound(n: real, rate: real, len: real)
    requires rate > 0.0 && len > 0.0 && n >= 0.0
    requires n * rate * 3.0 < 10.0 * len
    ensures n / (len / rate) * 60.0 < 200.0
  {
    assert n / (len / rate) == n * rate / len;
    assert n * rate * 60.0 < 200.0 * len;
    assert n * rate / len * 60.0 == (n * rate * 60.0) / len;
  }

  lemma CastProduct(n: nat, rate: nat)
    ensures (n * (3 * rate)) as real == n as real * rate as real * 3.0
  {
  }

  /** The raw estimate stays below 200 BPM, so at most rounding reaches the upper clamp. */
  lemma RawEstimateBelow200(b: AudioBuffer)
    requires b.Valid()
    ensures |CountedPeaks(b.Left(), b.sampleRate)| as real / b.Duration() * 60.0 < 200.0
    ensures Round(|CountedPeaks(b.Left(), b.sampleRate)| as real / b.Duration() * 60.0) <= 200
  {
    var n := |CountedPeaks(b.Left(), b.sampleRate)|;
    PeakCountBound(b);
    CastProduct(n, b.sampleRate);
    RateBound(n as real, b.sampleRate as real, b.length as real);
  }

  /** A buffer with no sample above the threshold reports the 60 BPM floor. */
  lemma SilenceIsSixty(b: AudioBuffer)
    requires b.Valid()
    requires forall i :: 0 <= i < b.length ==> b.Left()[i] <= Threshold
    ensures BpmOf(|CountedPeaks(b.Left(), b.sampleRate)|, b.Duration()) == 60
  {
  }
}
