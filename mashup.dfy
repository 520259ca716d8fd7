/**
 * createMashup: a ratio blend of the first two buffered sources, with
 * index-skipping "tempo" and a linear fade-in window at the start.
 */
module Mashup {
  import opened Wrappers
  import opened AudioBuffers

  /** The mash-mode controls: blend ratio (percent of track 1), crossfade seconds, tempo percent. */
  datatype MashSettings = MashSettings(mashRatio: real, crossfadeTime: real, tempo: real)

  /** What the sliders guarantee that the arithmetic relies on (tempo in [50, 150], crossfade in [0, 10]). */
  predicate SettingsOk(m: MashSettings) {
    m.tempo > 0.0 && m.crossfadeTime >= 0.0
  }

  /** `Math.floor(i / (tempo / 100))`: the source frame consulted for output frame i. */
  function SourceIndex(i: nat, tempo: real): nat
    requires tempo > 0.0
  {
    var x := i as real / (tempo / 100.0);
    assert x >= 0.0;
    x.Floor
  }

  /** A frame of a track, or silence past its end. */
  function SampleOr0(s: seq<real>, k: nat): real {
    if k < |s| then s[k] else 0.0
  }

  /** The two blend weights at output frame i with a fade-in window of `fade` frames. */
  function Weights(i: nat, ratio: real, fade: nat): (real, real) {
    var r1 := ratio / 100.0;
    var r2 := 1.0 - r1;
    if i < fade then
      var progress := i as real / fade as real;
      (r1 * progress, r2 * (1.0 - progress))
    else (r1, r2)
  }

  /** Output frame i: both tracks read at the same scaled index and blended. */
  function MixAt(t1: seq<real>, t2: seq<real>, i: nat, m: MashSettings, fade: nat): real
    requires SettingsOk(m)
  {
    var k := SourceIndex(i, m.tempo);
    var w := Weights(i, m.mashRatio, fade);
    SampleOr0(t1, k) * w.0 + SampleOr0(t2, k) * w.1
  }

  /** The index of the first source of greatest duration. */
  function Longest(loaded: seq<AudioSource>): (j: nat)
    requires |loaded| >= 1 && Buffered(loaded)
    ensures j < |loaded|
    ensures forall k :: 0 <= k < |loaded| ==> DurationOf(loaded[k]) <= DurationOf(loaded[j])
  {
    if |loaded| == 1 then 0
    else
      var rest := Longest(loaded[1..]) + 1;
      assert forall k :: 1 <= k < |loaded| ==> loaded[k] == loaded[1..][k - 1];
      if DurationOf(loaded[0]) >= DurationOf(loaded[rest]) then 0 else rest
  }

  /** `Math.max(...loaded.map(s => s.audioBuffer.duration))`. */
  function MaxDuration(loaded: seq<AudioSource>): (d: real)
    requires |loaded| >= 1 && Buffered(loaded)
    ensures forall k :: 0 <= k < |loaded| ==> DurationOf(loaded[k]) <= d
    ensures exists k :: 0 <= k < |loaded| && DurationOf(loaded[k]) == d
  {
    DurationOf(loaded[Longest(loaded)])
  }

  /** `maxDuration * sampleRate`: the frame count requested for the output, at the first source's rate. */
  function RequestedFrames(loaded: seq<AudioSource>): real
    requires |loaded| >= 1 && Buffered(loaded)
  {
    FramesAt(MaxDuration(loaded), loaded[0].buffer.value.sampleRate)
  }

  /** The mashup of an already filtered source list with at least two entries. */
  function MashupOf(loaded: seq<AudioSource>, m: MashSettings): Result<AudioBuffer, ComposeError>
    requires |loaded| >= 2 && Buffered(loaded) && SettingsOk(m)
  {
    var b1 := loaded[0].buffer.value;
    var b2 := loaded[1].buffer.value;
    var rate := b1.sampleRate;
    match AllocLength(RequestedFrames(loaded))
    case None => Err(BufferNotCreated)
    case Some(n) =>
      (var fade := SecondsToSamples(m.crossfadeTime, rate);
       var left := seq(n, i requires 0 <= i < n => MixAt(b1.Left(), b2.Left(), i, m, fade));
       Ok(AudioBuffer(rate, n, [left, left])))
  }

  /** One output frame of the mashing loop, computed as the loop body does. */
  method MixFrame(track1Left: seq<real>, track2Left: seq<real>, i: nat, m: MashSettings, fade: nat) returns (v: real)
    requires SettingsOk(m)
    ensures v == MixAt(track1Left, track2Left, i, m, fade)
  {
    var index := SourceIndex(i, m.tempo);
    assert index == (i as real / (m.tempo / 100.0)).Floor;
    var track1Sample := 0.0;
    var track2Sample := 0.0;
    if index < |track1Left| {
      track1Sample := track1Left[index];
    }
    if index < |track2Left| {
      track2Sample := track2Left[index];
    }
    var ratio1 := m.mashRatio / 100.0;
    var ratio2 := 1.0 - ratio1;
    var crossfadeRatio1 := ratio1;
    var crossfadeRatio2 := ratio2;
    if i < fade {
      var fadeProgress := i as real / fade as real;
      crossfadeRatio1 := crossfadeRatio1 * fadeProgress;
      crossfadeRatio2 := crossfadeRatio2 * (1.0 - fadeProgress);
    }
    var w := Weights(i, m.mashRatio, fade);
    assert crossfadeRatio1 == w.0 && crossfadeRatio2 == w.1;
    assert track1Sample == SampleOr0(track1Left, index) && track2Sample == SampleOr0(track2Left, index);
    v := track1Sample * crossfadeRatio1 + track2Sample * crossfadeRatio2;
  }

  method CreateMashup(analyzerReady: bool, sources: seq<AudioSource>, m: MashSettings)
    returns (r: Result<AudioBuffer, ComposeError>)
    requires AllBuffersValid(sources) && SettingsOk(m)
    ensures !analyzerReady ==> r == Err(AnalyzerNotInitialized)
    ensures analyzerReady && |WithBuffer(sources)| < 2 ==> r == Err(NeedTwoLoadedTracks)
    ensures analyzerReady && |WithBuffer(sources)| >= 2 ==>
              Buffered(WithBuffer(sources)) && r == MashupOf(WithBuffer(sources), m)
  {
    if !analyzerReady {
      return Err(AnalyzerNotInitialized);
    }
    var loaded := WithBuffer(sources);
    if |loaded| < 2 {
      return Err(NeedTwoLoadedTracks);
    }
    WithBufferIsBuffered(sources);
    var maxDuration := MaxDuration(loaded);
    var rate := loaded[0].buffer.value.sampleRate;
    var frames := AllocLength(FramesAt(maxDuration, rate));
    if frames.None? {
      return Err(BufferNotCreated);
    }
    var n := frames.value;
    var outputLeft := new real[n];
    var outputRight := new real[n];
    var fade := SecondsToSamples(m.crossfadeTime, rate);
    var track1Left := loaded[0].buffer.value.Left();
    var track2Left := loaded[1].buffer.value.Left();
    var i := 0;
    while i < n
      invariant 0 <= i <= n
      invariant forall k :: 0 <= k < i ==>
                  outputLeft[k] == MixAt(track1Left, track2Left, k, m, fade) && outputRight[k] == outputLeft[k]
    {
      outputLeft[i] := MixFrame(track1Left, track2Left, i, m, fade);
      outputRight[i] := outputLeft[i];
      i := i + 1;
    }
    var left := seq(n, k requires 0 <= k < n => MixAt(track1Left, track2Left, k, m, fade));
    assert outputLeft[..] == left;
    assert outputRight[..] == left;
    assert MashupOf(loaded, m) == Ok(AudioBuffer(rate, n, [left, left]));
    r := Ok(AudioBuffer(rate, n, [outputLeft[..], outputRight[..]]));
  }

  /**
   * A successful mashup is a valid two-channel buffer at the first source's
   * rate whose right channel equals its left, every frame the blend formula.
   */
  lemma MashupShape(loaded: seq<AudioSource>, m: MashSettings)
    requires |loaded| >= 2 && Buffered(loaded) && SettingsOk(m)
    requires MashupOf(loaded, m).Ok?
    ensures var b := MashupOf(loaded, m).value;
            var rate := loaded[0].buffer.value.sampleRate;
            && b.Valid() && b.NumberOfChannels() == 2 && b.sampleRate == rate
            && b.channels[1] == b.channels[0]
            && b.length as real <= RequestedFrames(loaded) < b.length as real + 1.0
            && forall i :: 0 <= i < b.length ==>
                 b.channels[0][i] == MixAt(loaded[0].buffer.value.Left(), loaded[1].buffer.value.Left(), i, m,
                                           SecondsToSamples(m.crossfadeTime, rate))
  {
  }

  /** At one sample rate, the source longest in seconds is also the longest in frames. */
  lemma {:induction false} LongestInFrames(loaded: seq<AudioSource>, j: nat)
    requires Buffered(loaded) && |loaded| >= 1 && OneRate(loaded) && j < |loaded|
    requires forall k :: 0 <= k < |loaded| ==> DurationOf(loaded[k]) <= DurationOf(loaded[j])
    ensures forall k :: 0 <= k < |loaded| ==> loaded[k].buffer.value.length <= loaded[j].buffer.value.length
  {
    forall k | 0 <= k < |loaded| ensures loaded[k].buffer.value.length <= loaded[j].buffer.value.length {
      assert DurationOf(loaded[k]) <= DurationOf(loaded[j]);
      loaded[k].buffer.value.LongerAtSameRate(loaded[j].buffer.value);
    }
  }

  /** With one sample rate throughout, the requested frame count is the length of the longest source. */
  lemma {:induction false} RequestedIsLongest(loaded: seq<AudioSource>) returns (j: nat)
    requires |loaded| >= 1 && Buffered(loaded) && OneRate(loaded)
    ensures j < |loaded| && RequestedFrames(loaded) == loaded[j].buffer.value.length as real
    ensures forall k :: 0 <= k < |loaded| ==> loaded[k].buffer.value.length <= loaded[j].buffer.value.length
  {
    j := Longest(loaded);
    LongestInFrames(loaded, j);
    FramesOfDuration(loaded[j].buffer.value, MaxDuration(loaded), loaded[0].buffer.value.sampleRate);
  }

  /** With one sample rate throughout, the mashup is exactly as long as the longest loaded source, even a third one. */
  lemma MashupLengthIsLongest(loaded: seq<AudioSource>, m: MashSettings)
    requires |loaded| >= 2 && Buffered(loaded) && SettingsOk(m) && OneRate(loaded)
    ensures MashupOf(loaded, m).Ok?
    ensures forall k :: 0 <= k < |loaded| ==> loaded[k].buffer.value.length <= MashupOf(loaded, m).value.length
    ensures exists k :: 0 <= k < |loaded| && loaded[k].buffer.value.length == MashupOf(loaded, m).value.length
  {
    var j := RequestedIsLongest(loaded);
    AllocLengthIsFloor(RequestedFrames(loaded));
  }

  /** Outside the fade-in window a 100% ratio plays track 1 alone and a 0% ratio track 2 alone. */
  lemma BlendEndpoints(t1: seq<real>, t2: seq<real>, i: nat, m: MashSettings, fade: nat)
    requires SettingsOk(m) && i >= fade
    ensures m.mashRatio == 100.0 ==> MixAt(t1, t2, i, m, fade) == SampleOr0(t1, SourceIndex(i, m.tempo))
    ensures m.mashRatio == 0.0 ==> MixAt(t1, t2, i, m, fade) == SampleOr0(t2, SourceIndex(i, m.tempo))
  {
  }

  /** The first frame of a fade-in window carries no track 1 at all. */
  lemma FadeStartsWithoutTrack1(t1: seq<real>, t2: seq<real>, m: MashSettings, fade: nat)
    requires SettingsOk(m) && fade > 0
    ensures MixAt(t1, t2, 0, m, fade) == SampleOr0(t2, 0) * (1.0 - m.mashRatio / 100.0)
  {
    assert SourceIndex(0, m.tempo) == 0;
  }

  /** At tempo 100 the index skipping is the identity. */
  lemma UnitTempoReadsInPlace(i: nat)
    ensures SourceIndex(i, 100.0) == i
  {
  }

  /**
   * An even blend of a track with silence, no crossfade and unit tempo halves
   * the track and is silent once the track is exhausted.
   */
  lemma HalfBlendWithSilence(t1: seq<real>, t2: seq<real>, i: nat)
    requires forall k :: 0 <= k < |t2| ==> t2[k] == 0.0
    ensures var m := MashSettings(50.0, 0.0, 100.0);
            MixAt(t1, t2, i, m, 0) == if i < |t1| then 0.5 * t1[i] else 0.0
  {
    UnitTempoReadsInPlace(i);
  }
}
