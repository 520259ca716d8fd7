/**
 * The song masher's data model: decoded PCM buffers, the audio sources that
 * hold them, and the platform's buffer allocation.
 */
module AudioBuffers {
  import opened Wrappers

  /**
   * A decoded buffer: `sampleRate` frames per second, `length` frames,
   * `channels[c][i]` the i-th sample of channel c. Samples are exact reals.
   */
  datatype AudioBuffer = AudioBuffer(sampleRate: nat, length: nat, channels: seq<seq<real>>) {
    /** What the platform guarantees of every buffer it hands out. */
    predicate Valid() {
      sampleRate > 0 && length >= 1 && |channels| >= 1 &&
      forall c :: 0 <= c < |channels| ==> |channels[c]| == length
    }

    /** Seconds times frames per second gives the frame count back. */
    lemma DurationTimesRate()
      requires Valid()
      ensures Duration() * sampleRate as real == length as real
    {
    }

    /** At one sample rate, the longer buffer in seconds is the longer one in frames. */
    lemma LongerAtSameRate(other: AudioBuffer)
      requires Valid() && other.Valid() && other.sampleRate == sampleRate
      ensures Duration() <= other.Duration() <==> length <= other.length
    {
      var r := sampleRate as real;
      assert other.Duration() - Duration() == (other.length as real - length as real) / r;
    }

    function NumberOfChannels(): nat {
      |channels|
    }

    /** `duration`, in seconds. */
    function Duration(): (d: real)
      requires Valid()
      ensures d > 0.0
    {
      length as real / sampleRate as real
    }

    /** `getChannelData(0)`. */
    function Left(): (s: seq<real>)
      requires Valid()
      ensures |s| == length
    {
      channels[0]
    }

    /** Channel 1 when the buffer has one, otherwise channel 0 (a mono buffer is heard on both sides). */
    function RightOrLeft(): (s: seq<real>)
      requires Valid()
      ensures |s| == length
      ensures NumberOfChannels() == 1 ==> s == Left()
    {
      if |channels| > 1 then channels[1] else channels[0]
    }
  }

  datatype SourceKind = File | YouTube

  /** One entry of the session's source list. */
  datatype AudioSource = AudioSource(
    id: string,
    name: string,
    kind: SourceKind,
    isLoaded: bool,
    duration: Option<real>,
    buffer: Option<AudioBuffer>,
    bpm: Option<int>)

  predicate AllBuffersValid(sources: seq<AudioSource>) {
    forall k :: 0 <= k < |sources| ==> sources[k].buffer.Some? ==> sources[k].buffer.value.Valid()
  }

  /** `sources.filter(s => s.audioBuffer)`, in order. */
  function WithBuffer(sources: seq<AudioSource>): (r: seq<AudioSource>)
    ensures |r| <= |sources|
    ensures forall k :: 0 <= k < |r| ==> r[k].buffer.Some? && r[k] in sources
    ensures AllBuffersValid(sources) ==> AllBuffersValid(r)
  {
    if sources == [] then []
    else if sources[0].buffer.Some? then [sources[0]] + WithBuffer(sources[1..])
    else WithBuffer(sources[1..])
  }

  /** `sources.filter(s => s.isLoaded && s.audioBuffer)`, in order. */
  function LoadedWithBuffer(sources: seq<AudioSource>): (r: seq<AudioSource>)
    ensures |r| <= |sources|
    ensures forall k :: 0 <= k < |r| ==> r[k].isLoaded && r[k].buffer.Some? && r[k] in sources
    ensures AllBuffersValid(sources) ==> AllBuffersValid(r) && Buffered(r)
  {
    if sources == [] then []
    else if sources[0].isLoaded && sources[0].buffer.Some? then [sources[0]] + LoadedWithBuffer(sources[1..])
    else LoadedWithBuffer(sources[1..])
  }

  /** Filtering again by buffer changes nothing once the loaded sources are selected. */
  lemma {:induction false} WithBufferOfLoaded(sources: seq<AudioSource>)
    ensures WithBuffer(LoadedWithBuffer(sources)) == LoadedWithBuffer(sources)
  {
    if sources != [] {
      WithBufferOfLoaded(sources[1..]);
    }
  }

  /** Every source carries a valid buffer. */
  predicate Buffered(loaded: seq<AudioSource>) {
    forall k :: 0 <= k < |loaded| ==> loaded[k].buffer.Some? && loaded[k].buffer.value.Valid()
  }

  /** Sources that all carry a buffer pass the buffer filter unchanged. */
  lemma {:induction false} BufferedKeepsAll(loaded: seq<AudioSource>)
    requires Buffered(loaded)
    ensures WithBuffer(loaded) == loaded
  {
    if loaded != [] {
      BufferedKeepsAll(loaded[1..]);
      assert [loaded[0]] + loaded[1..] == loaded;
    }
  }

  lemma WithBufferIsBuffered(sources: seq<AudioSource>)
    requires AllBuffersValid(sources)
    ensures Buffered(WithBuffer(sources))
  {
  }

  /** Every source shares the first source's sample rate. */
  predicate OneRate(loaded: seq<AudioSource>)
    requires Buffered(loaded)
  {
    forall k :: 0 <= k < |loaded| ==> loaded[k].buffer.value.sampleRate == loaded[0].buffer.value.sampleRate
  }

  /** `audioBuffer.duration` of a buffered source. */
  function DurationOf(s: AudioSource): real
    requires s.buffer.Some? && s.buffer.value.Valid()
  {
    s.buffer.value.Duration()
  }

  /** `seconds * sampleRate`: a time as a (fractional) frame count. */
  function FramesAt(seconds: real, rate: nat): real {
    seconds * rate as real
  }

  /** A duration in seconds times its buffer's rate is its frame count, whatever the rate is called. */
  lemma FramesOfDuration(b: AudioBuffer, d: real, rate: nat)
    requires b.Valid() && d == b.Duration() && rate == b.sampleRate
    ensures FramesAt(d, rate) == b.length as real
  {
    b.DurationTimesRate();
  }

  /** Converting times to frames distributes over sums and differences of times. */
  lemma FramesAtLinear(a: real, b: real, rate: nat)
    ensures FramesAt(a + b, rate) == FramesAt(a, rate) + FramesAt(b, rate)
    ensures FramesAt(a - b, rate) == FramesAt(a, rate) - FramesAt(b, rate)
  {
  }

  /** `Math.floor(seconds * sampleRate)`. */
  function SecondsToSamples(seconds: real, rate: nat): nat
    requires seconds >= 0.0
  {
    assert FramesAt(seconds, rate) >= 0.0;
    FramesAt(seconds, rate).Floor
  }

  /** A sample count is the time at the rate, rounded down. */
  lemma SecondsToSamplesIsFloor(seconds: real, rate: nat)
    requires seconds >= 0.0
    ensures SecondsToSamples(seconds, rate) as real <= FramesAt(seconds, rate) < SecondsToSamples(seconds, rate) as real + 1.0
  {
  }

  /**
   * `audioCtx.createBuffer(2, frames, rate)`: the requested frame count is
   * truncated to an integer, and the platform refuses a zero (or negative) length.
   */
  function AllocLength(frames: real): (r: Option<nat>)
    ensures r.Some? <==> frames >= 1.0
  {
    if frames >= 1.0 then Some(frames.Floor) else None
  }

  /** An allocated length is the requested frame count rounded down, at least 1. */
  lemma AllocLengthIsFloor(frames: real)
    requires frames >= 1.0
    ensures AllocLength(frames).value >= 1
    ensures AllocLength(frames).value as real <= frames < AllocLength(frames).value as real + 1.0
  {
  }

  /** Why a composition throws. */
  datatype ComposeError =
    | AnalyzerNotInitialized   // "Audio analyzer not initialized"
    | NeedTwoLoadedTracks      // "Need at least 2 loaded tracks"
    | BufferNotCreated         // createBuffer refused the length

  /**
   * The update made once a file has been decoded and analysed (the map in
   * addAudioFile). `tempo` is `analysisData.tempo`, which `analyzeAudio`
   * takes from `detectBPM` of the same buffer: `BpmDetector.DetectBpm`,
   * whose result is `BpmOf` of the counted peaks of the left channel.
   */
  function MarkLoaded(sources: seq<AudioSource>, id: string, b: AudioBuffer, tempo: int): (r: seq<AudioSource>)
    requires b.Valid()
    ensures |r| == |sources|
    ensures forall k :: 0 <= k < |r| ==>
      if sources[k].id == id
      then r[k] == sources[k].(isLoaded := true, duration := Some(b.Duration()), buffer := Some(b), bpm := Some(tempo))
      else r[k] == sources[k]
  {
    seq(|sources|, k requires 0 <= k < |sources| =>
      if sources[k].id == id
      then sources[k].(isLoaded := true, duration := Some(b.Duration()), buffer := Some(b), bpm := Some(tempo))
      else sources[k])
  }

  /** The ready filter keeps exactly the loaded sources that hold a buffer. */
  lemma {:induction false} LoadedWithBufferMembers(sources: seq<AudioSource>, x: AudioSource)
    ensures x in LoadedWithBuffer(sources) <==> x in sources && x.isLoaded && x.buffer.Some?
  {
    if sources != [] {
      LoadedWithBufferMembers(sources[1..], x);
      assert sources == [sources[0]] + sources[1..];
    }
  }

  /** A source survives the buffer filter exactly when it is in the list and carries a buffer. */
  lemma {:induction false} WithBufferMembers(sources: seq<AudioSource>, x: AudioSource)
    ensures x in WithBuffer(sources) <==> x in sources && x.buffer.Some?
  {
    if sources != [] {
      WithBufferMembers(sources[1..], x);
      assert sources == [sources[0]] + sources[1..];
    }
  }

  /** The buffer filter keeps order: filtering a concatenation is concatenating the filtered parts. */
  lemma {:induction false} WithBufferConcat(a: seq<AudioSource>, b: seq<AudioSource>)
    ensures WithBuffer(a + b) == WithBuffer(a) + WithBuffer(b)
  {
    if a == [] {
      assert a + b == b;
    } else {
      assert (a + b)[0] == a[0] && (a + b)[1..] == a[1..] + b;
      WithBufferConcat(a[1..], b);
    }
  }

  /** `processAudio`'s filter keeps order too. */
  lemma {:induction false} LoadedWithBufferConcat(a: seq<AudioSource>, b: seq<AudioSource>)
    ensures LoadedWithBuffer(a + b) == LoadedWithBuffer(a) + LoadedWithBuffer(b)
  {
    if a == [] {
      assert a + b == b;
    } else {
      assert (a + b)[0] == a[0] && (a + b)[1..] == a[1..] + b;
      LoadedWithBufferConcat(a[1..], b);
    }
  }

  /** Once its file is decoded, a source is among those `processAudio` composes; the ids in the list stay as they were. */
  lemma MarkLoadedIsReady(sources: seq<AudioSource>, id: string, b: AudioBuffer, tempo: int, k: nat)
    requires b.Valid() && k < |sources| && sources[k].id == id
    ensures MarkLoaded(sources, id, b, tempo)[k] in LoadedWithBuffer(MarkLoaded(sources, id, b, tempo))
    ensures forall j :: 0 <= j < |sources| ==> MarkLoaded(sources, id, b, tempo)[j].id == sources[j].id
  {
    var r := MarkLoaded(sources, id, b, tempo);
    LoadedWithBufferMembers(r, r[k]);
  }

  /** `sources.filter(source => source.id !== id)`: removeAudioSource, and the rollback after a decode error. */
  function RemoveSource(sources: seq<AudioSource>, id: string): (r: seq<AudioSource>)
    ensures |r| <= |sources|
    ensures forall k :: 0 <= k < |r| ==> r[k].id != id && r[k] in sources
    ensures forall s :: s in sources && s.id != id ==> s in r
  {
    if sources == [] then []
    else if sources[0].id != id then [sources[0]] + RemoveSource(sources[1..], id)
    else RemoveSource(sources[1..], id)
  }

  /** Removing a source keeps the others in order: removal from a concatenation is removal from each part. */
  lemma {:induction false} RemoveSourceConcat(a: seq<AudioSource>, b: seq<AudioSource>, id: string)
    ensures RemoveSource(a + b, id) == RemoveSource(a, id) + RemoveSource(b, id)
  {
    if a == [] {
      assert a + b == b;
    } else {
      assert (a + b)[0] == a[0] && (a + b)[1..] == a[1..] + b;
      RemoveSourceConcat(a[1..], b, id);
    }
  }
}
