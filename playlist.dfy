/**
 * createPlaylist: the buffered sources one after another at a running write
 * offset, separated by a gap, either cut or overlapped by a linear crossfade.
 */
module Playlist {
  import opened Wrappers
  import opened AudioBuffers

  datatype Transition = Crossfade | Cut

  /** The playlist-mode controls: transition kind, transition seconds, gap seconds. */
  datatype PlaylistSettings = PlaylistSettings(transition: Transition, transitionDuration: real, gapTime: real)

  /** What the sliders guarantee (transition in [0, 10] seconds, gap in [0, 5] seconds). */
  predicate SettingsOk(p: PlaylistSettings) {
    p.transitionDuration >= 0.0 && p.gapTime >= 0.0
  }

  /** The frame count of every source's channel 0, in order. */
  function LengthsOf(tracks: seq<seq<real>>): (lens: seq<nat>)
    ensures |lens| == |tracks|
    ensures forall k :: 0 <= k < |tracks| ==> lens[k] == |tracks[k]|
  {
    seq(|tracks|, k requires 0 <= k < |tracks| => |tracks[k]|)
  }

  /** The frames by which consecutive tracks overlap: the transition in crossfade mode, none in cut mode. */
  function Overlap(crossfade: bool, fadeLen: nat): nat {
    if crossfade then fadeLen else 0
  }

  /**
   * The write offset of track k: the previous offset advanced by the previous
   * track's length and, unless it was the last track, by the gap less the overlap.
   */
  function Start(lens: seq<nat>, gap: nat, overlap: nat, k: nat): int
    requires k <= |lens|
  {
    if k == 0 then 0
    else Start(lens, gap, overlap, k - 1) + lens[k - 1] + (if k - 1 < |lens| - 1 then gap - overlap else 0)
  }

  /** No transition is longer than the track before it plus the gap, so the write offset never moves back. */
  predicate OffsetsOk(lens: seq<nat>, gap: nat, overlap: nat) {
    forall k :: 0 <= k < |lens| - 1 ==> lens[k] + gap >= overlap
  }

  /** Write offsets never decrease. */
  lemma {:induction false} StartMonotone(lens: seq<nat>, gap: nat, overlap: nat, a: nat, b: nat)
    requires OffsetsOk(lens, gap, overlap) && a <= b <= |lens|
    ensures Start(lens, gap, overlap, a) <= Start(lens, gap, overlap, b)
    decreases b - a
  {
    if a < b {
      StartMonotone(lens, gap, overlap, a, b - 1);
    }
  }

  /** Every write offset is a valid (non-negative) array index origin. */
  lemma StartNonneg(lens: seq<nat>, gap: nat, overlap: nat, k: nat)
    requires OffsetsOk(lens, gap, overlap) && k <= |lens|
    ensures Start(lens, gap, overlap, k) >= 0
  {
    StartMonotone(lens, gap, overlap, 0, k);
  }

  /** `j / transitionSamples`: how far frame j is into the transition. */
  function FadeRatio(j: nat, fadeLen: nat): (f: real)
    requires j < fadeLen
    ensures 0.0 <= f < 1.0
  {
    j as real / fadeLen as real
  }

  /** A crossfade frame: the sample already in the output fading out, the new track's sample fading in. */
  function Fade(prev: real, cur: real, j: nat, fadeLen: nat): real
    requires j < fadeLen
  {
    var f := FadeRatio(j, fadeLen);
    prev * (1.0 - f) + cur * f
  }

  /** The value written at frame j of a track over `prev`. */
  function Written(prev: real, cur: real, j: nat, fadeLen: nat, verbatim: bool): real {
    if verbatim || j >= fadeLen then cur else Fade(prev, cur, j, fadeLen)
  }

  /** Inside the transition a non-verbatim write is the fade. */
  lemma WrittenIsFade(prev: real, cur: real, j: nat, fadeLen: nat, verbatim: bool)
    requires !verbatim && j < fadeLen
    ensures Written(prev, cur, j, fadeLen, verbatim) == Fade(prev, cur, j, fadeLen)
  {
  }

  /** A verbatim write, or one past the transition, is the track's own sample. */
  lemma WrittenIsSample(prev: real, cur: real, j: nat, fadeLen: nat, verbatim: bool)
    requires verbatim || j >= fadeLen
    ensures Written(prev, cur, j, fadeLen, verbatim) == cur
  {
  }

  /** `out` after the first m frames of `cur` are written from offset `off`; frames past the end of `out` are dropped. */
  function OverlayPrefix(out: seq<real>, cur: seq<real>, off: nat, fadeLen: nat, verbatim: bool, m: nat): (r: seq<real>)
    requires m <= |cur|
    ensures |r| == |out|
  {
    seq(|out|, p requires 0 <= p < |out| =>
      if off <= p < off + m then Written(out[p], cur[p - off], p - off, fadeLen, verbatim) else out[p])
  }

  /** `out` after the whole of `cur` is written from offset `off`. */
  function Overlay(out: seq<real>, cur: seq<real>, off: nat, fadeLen: nat, verbatim: bool): (r: seq<real>)
    ensures |r| == |out|
  {
    OverlayPrefix(out, cur, off, fadeLen, verbatim, |cur|)
  }

  /**
   * One channel of the playlist after its first k tracks are written at the
   * offsets that the channel-0 lengths `lens` give; the first track and cut
   * mode copy verbatim.
   */
  function Layout(out: seq<real>, tracks: seq<seq<real>>, lens: seq<nat>, fadeLen: nat, gap: nat, crossfade: bool, k: nat): (r: seq<real>)
    requires k <= |tracks| == |lens| && OffsetsOk(lens, gap, Overlap(crossfade, fadeLen))
    ensures |r| == |out|
  {
    if k == 0 then out
    else
      var overlap := Overlap(crossfade, fadeLen);
      StartNonneg(lens, gap, overlap, k - 1);
      var off := Start(lens, gap, overlap, k - 1) as nat;
      Overlay(Layout(out, tracks, lens, fadeLen, gap, crossfade, k - 1), tracks[k - 1], off, fadeLen, k - 1 == 0 || !crossfade)
  }

  /** Writing track k over the first k tracks gives the first k + 1. */
  lemma LayoutNext(out: seq<real>, tracks: seq<seq<real>>, lens: seq<nat>, fadeLen: nat, gap: nat, crossfade: bool, k: nat)
    requires k < |tracks| == |lens| && OffsetsOk(lens, gap, Overlap(crossfade, fadeLen))
    requires Start(lens, gap, Overlap(crossfade, fadeLen), k) >= 0
    ensures Layout(out, tracks, lens, fadeLen, gap, crossfade, k + 1) ==
            Overlay(Layout(out, tracks, lens, fadeLen, gap, crossfade, k), tracks[k],
                    Start(lens, gap, Overlap(crossfade, fadeLen), k) as nat, fadeLen, k == 0 || !crossfade)
  {
  }

  /** A zero-filled channel of n frames, as `createBuffer` allocates it. */
  function Silence(n: nat): (s: seq<real>)
    ensures |s| == n && forall i :: 0 <= i < n ==> s[i] == 0.0
  {
    seq(n, _ => 0.0)
  }

  /** Channel 0 of every source. */
  function Lefts(loaded: seq<AudioSource>): (r: seq<seq<real>>)
    requires Buffered(loaded)
    ensures |r| == |loaded|
    ensures forall k :: 0 <= k < |loaded| ==> r[k] == loaded[k].buffer.value.Left()
  {
    seq(|loaded|, k requires 0 <= k < |loaded| => loaded[k].buffer.value.Left())
  }

  /** Channel 1 of every source, or channel 0 of a mono one. */
  function Rights(loaded: seq<AudioSource>): (r: seq<seq<real>>)
    requires Buffered(loaded)
    ensures |r| == |loaded|
    ensures forall k :: 0 <= k < |loaded| ==> r[k] == loaded[k].buffer.value.RightOrLeft()
  {
    seq(|loaded|, k requires 0 <= k < |loaded| => loaded[k].buffer.value.RightOrLeft())
  }

  /** `Math.floor(transitionDuration * sampleRate)`, at the first source's rate. */
  function FadeFrames(loaded: seq<AudioSource>, p: PlaylistSettings): nat
    requires |loaded| >= 1 && Buffered(loaded) && SettingsOk(p)
  {
    SecondsToSamples(p.transitionDuration, loaded[0].buffer.value.sampleRate)
  }

  /** `Math.floor(gapTime * sampleRate)`, at the first source's rate. */
  function GapFrames(loaded: seq<AudioSource>, p: PlaylistSettings): nat
    requires |loaded| >= 1 && Buffered(loaded) && SettingsOk(p)
  {
    SecondsToSamples(p.gapTime, loaded[0].buffer.value.sampleRate)
  }

  /** The precondition of the layout for these sources and settings. */
  predicate NoBacktrack(loaded: seq<AudioSource>, p: PlaylistSettings)
    requires |loaded| >= 1 && Buffered(loaded) && SettingsOk(p)
  {
    OffsetsOk(LengthsOf(Lefts(loaded)), GapFrames(loaded, p), Overlap(p.transition == Crossfade, FadeFrames(loaded, p)))
  }

  /** The running `totalDuration` after the first k sources: each one's duration, plus gap less transition between tracks. */
  function SecondsUpTo(loaded: seq<AudioSource>, p: PlaylistSettings, k: nat): real
    requires k <= |loaded| && Buffered(loaded)
  {
    if k == 0 then 0.0
    else
      var t := SecondsUpTo(loaded, p, k - 1) + DurationOf(loaded[k - 1]);
      if k - 1 < |loaded| - 1 then
        var withGap := t + p.gapTime;
        if p.transition == Crossfade then withGap - p.transitionDuration else withGap
      else t
  }

  /** `totalDuration * sampleRate`: the frame count requested for the output, at the first source's rate. */
  function TotalFrames(loaded: seq<AudioSource>, p: PlaylistSettings): real
    requires |loaded| >= 1 && Buffered(loaded)
  {
    FramesAt(SecondsUpTo(loaded, p, |loaded|), loaded[0].buffer.value.sampleRate)
  }

  /** The playlist of an already filtered source list with at least two entries. */
  function PlaylistOf(loaded: seq<AudioSource>, p: PlaylistSettings): Result<AudioBuffer, ComposeError>
    requires |loaded| >= 2 && Buffered(loaded) && SettingsOk(p) && NoBacktrack(loaded, p)
  {
    var rate := loaded[0].buffer.value.sampleRate;
    match AllocLength(TotalFrames(loaded, p))
    case None => Err(BufferNotCreated)
    case Some(n) =>
      (var fadeLen := FadeFrames(loaded, p);
       var gap := GapFrames(loaded, p);
       var crossfade := p.transition == Crossfade;
       var silence := Silence(n);
       var lens := LengthsOf(Lefts(loaded));
       Ok(AudioBuffer(rate, n, [Layout(silence, Lefts(loaded), lens, fadeLen, gap, crossfade, |loaded|),
                                Layout(silence, Rights(loaded), lens, fadeLen, gap, crossfade, |loaded|)])))
  }

  /** Writing one more frame of a track extends the written prefix by that frame. */
  lemma OverlayGrows(out: seq<real>, cur: seq<real>, off: nat, fadeLen: nat, verbatim: bool, j: nat)
    requires j < |cur| && off + j < |out|
    ensures OverlayPrefix(out, cur, off, fadeLen, verbatim, j + 1) ==
            OverlayPrefix(out, cur, off, fadeLen, verbatim, j)[off + j := Written(out[off + j], cur[j], j, fadeLen, verbatim)]
  {
  }

  /** Once the write position reaches the end of the output, the rest of the track is dropped. */
  lemma OverlayClipped(out: seq<real>, cur: seq<real>, off: nat, fadeLen: nat, verbatim: bool, j: nat)
    requires j <= |cur| && (j == |cur| || off + j >= |out|)
    ensures OverlayPrefix(out, cur, off, fadeLen, verbatim, j) == Overlay(out, cur, off, fadeLen, verbatim)
  {
  }

  /** The loop body for one frame of one channel, as the source computes it. */
  method WriteFrame(output: array<real>, cur: seq<real>, off: nat, j: nat, fadeLen: nat, verbatim: bool)
    requires j < |cur| && off + j < output.Length
    modifies output
    ensures output[..] == old(output[..])[off + j := Written(old(output[off + j]), cur[j], j, fadeLen, verbatim)]
  {
    if verbatim || j >= fadeLen {
      output[off + j] := cur[j];
    } else {
      var fadeRatio := j as real / fadeLen as real;
      var prevSample := output[off + j];
      output[off + j] := prevSample * (1.0 - fadeRatio) + cur[j] * fadeRatio;
    }
  }

  /** The `forEach` that sums `totalDuration`. */
  method TotalDuration(loaded: seq<AudioSource>, p: PlaylistSettings) returns (totalDuration: real)
    requires Buffered(loaded)
    ensures totalDuration == SecondsUpTo(loaded, p, |loaded|)
  {
    var crossfade := p.transition == Crossfade;
    totalDuration := 0.0;
    var index := 0;
    while index < |loaded|
      invariant 0 <= index <= |loaded|
      invariant totalDuration == SecondsUpTo(loaded, p, index)
    {
      totalDuration := totalDuration + loaded[index].buffer.value.Duration();
      if index < |loaded| - 1 {
        totalDuration := totalDuration + p.gapTime;
        if crossfade {
          totalDuration := totalDuration - p.transitionDuration;
        }
      }
      index := index + 1;
    }
  }

  /** The "copy current track" loop: both channels of one track written from offset `off`, clipped at the end of the output. */
  method CopyTrack(outputLeft: array<real>, outputRight: array<real>, currentLeft: seq<real>, currentRight: seq<real>,
                   off: nat, transitionSamples: nat, verbatim: bool)
    requires outputLeft != outputRight && outputLeft.Length == outputRight.Length && |currentRight| == |currentLeft|
    modifies outputLeft, outputRight
    ensures outputLeft[..] == Overlay(old(outputLeft[..]), currentLeft, off, transitionSamples, verbatim)
    ensures outputRight[..] == Overlay(old(outputRight[..]), currentRight, off, transitionSamples, verbatim)
  {
    ghost var leftBefore := outputLeft[..];
    ghost var rightBefore := outputRight[..];
    var j := 0;
    while j < |currentLeft| && off + j < outputLeft.Length
      invariant 0 <= j <= |currentLeft|
      invariant outputLeft[..] == OverlayPrefix(leftBefore, currentLeft, off, transitionSamples, verbatim, j)
      invariant outputRight[..] == OverlayPrefix(rightBefore, currentRight, off, transitionSamples, verbatim, j)
    {
      OverlayGrows(leftBefore, currentLeft, off, transitionSamples, verbatim, j);
      OverlayGrows(rightBefore, currentRight, off, transitionSamples, verbatim, j);
      WriteFrame(outputLeft, currentLeft, off, j, transitionSamples, verbatim);
      WriteFrame(outputRight, currentRight, off, j, transitionSamples, verbatim);
      j := j + 1;
    }
    OverlayClipped(leftBefore, currentLeft, off, transitionSamples, verbatim, j);
    OverlayClipped(rightBefore, currentRight, off, transitionSamples, verbatim, j);
  }

  /**
   * The track-copying loops over freshly zeroed output channels of n frames:
   * `lefts[i]` and `rights[i]` are channel 0 and channel 1 (or 0) of source i.
   */
  method WriteTracks(lefts: seq<seq<real>>, rights: seq<seq<real>>, n: nat, transitionSamples: nat, gapSamples: nat, crossfade: bool)
    returns (outputLeft: array<real>, outputRight: array<real>)
    requires |rights| == |lefts| && forall k :: 0 <= k < |lefts| ==> |rights[k]| == |lefts[k]|
    requires OffsetsOk(LengthsOf(lefts), gapSamples, Overlap(crossfade, transitionSamples))
    ensures outputLeft[..] == Layout(Silence(n), lefts, LengthsOf(lefts), transitionSamples, gapSamples, crossfade, |lefts|)
    ensures outputRight[..] == Layout(Silence(n), rights, LengthsOf(lefts), transitionSamples, gapSamples, crossfade, |lefts|)
  {
    outputLeft := new real[n](_ => 0.0);
    outputRight := new real[n](_ => 0.0);
    ghost var silence := Silence(n);
    assert outputLeft[..] == silence && outputRight[..] == silence;
    ghost var lens := LengthsOf(lefts);
    ghost var overlap := Overlap(crossfade, transitionSamples);

    var outputOffset := 0;
    var i := 0;
    while i < |lefts|
      invariant 0 <= i <= |lefts|
      invariant outputOffset == Start(lens, gapSamples, overlap, i)
      invariant outputLeft[..] == Layout(silence, lefts, lens, transitionSamples, gapSamples, crossfade, i)
      invariant outputRight[..] == Layout(silence, rights, lens, transitionSamples, gapSamples, crossfade, i)
    {
      var currentLeft := lefts[i];
      var currentRight := rights[i];
      var verbatim := i == 0 || !crossfade;
      StartNonneg(lens, gapSamples, overlap, i);
      var off: nat := outputOffset;
      CopyTrack(outputLeft, outputRight, currentLeft, currentRight, off, transitionSamples, verbatim);
      LayoutNext(silence, lefts, lens, transitionSamples, gapSamples, crossfade, i);
      LayoutNext(silence, rights, lens, transitionSamples, gapSamples, crossfade, i);
      outputOffset := outputOffset + |currentLeft|;
      if i < |lefts| - 1 {
        outputOffset := outputOffset + gapSamples;
        if crossfade {
          outputOffset := outputOffset - transitionSamples;
        }
      }
      i := i + 1;
    }
    assert i == |lefts|;
  }

  method CreatePlaylist(analyzerReady: bool, sources: seq<AudioSource>, p: PlaylistSettings)
    returns (r: Result<AudioBuffer, ComposeError>)
    requires AllBuffersValid(sources) && SettingsOk(p)
    requires Buffered(WithBuffer(sources)) && |WithBuffer(sources)| >= 1 ==> NoBacktrack(WithBuffer(sources), p)
    ensures !analyzerReady ==> r == Err(AnalyzerNotInitialized)
    ensures analyzerReady && |WithBuffer(sources)| < 2 ==> r == Err(NeedTwoLoadedTracks)
    ensures analyzerReady && |WithBuffer(sources)| >= 2 ==>
              Buffered(WithBuffer(sources)) && r == PlaylistOf(WithBuffer(sources), p)
  {
    if !analyzerReady {
      return Err(AnalyzerNotInitialized);
    }
    var loaded := WithBuffer(sources);
    if |loaded| < 2 {
      return Err(NeedTwoLoadedTracks);
    }
    WithBufferIsBuffered(sources);
    var transitionSamples := SecondsToSamples(p.transitionDuration, loaded[0].buffer.value.sampleRate);
    var gapSamples := SecondsToSamples(p.gapTime, loaded[0].buffer.value.sampleRate);
    var totalDuration := TotalDuration(loaded, p);
    var sampleRate := loaded[0].buffer.value.sampleRate;
    var frames := AllocLength(FramesAt(totalDuration, sampleRate));
    if frames.None? {
      return Err(BufferNotCreated);
    }
    var outputLeft, outputRight := WriteTracks(Lefts(loaded), Rights(loaded), frames.value, transitionSamples, gapSamples,
                                               p.transition == Crossfade);
    r := Ok(AudioBuffer(sampleRate, frames.value, [outputLeft[..], outputRight[..]]));
  }

  /** A position that no track among the first m covers keeps its initial value. */
  lemma {:induction false} LayoutUntouched(out: seq<real>, tracks: seq<seq<real>>, lens: seq<nat>, fadeLen: nat, gap: nat,
                                           crossfade: bool, m: nat, q: nat)
    requires m <= |tracks| == |lens| && OffsetsOk(lens, gap, Overlap(crossfade, fadeLen)) && q < |out|
    requires forall l :: 0 <= l < m ==>
               !(Start(lens, gap, Overlap(crossfade, fadeLen), l) <= q < Start(lens, gap, Overlap(crossfade, fadeLen), l) + |tracks[l]|)
    ensures Layout(out, tracks, lens, fadeLen, gap, crossfade, m)[q] == out[q]
  {
    if m > 0 {
      LayoutUntouched(out, tracks, lens, fadeLen, gap, crossfade, m - 1, q);
    }
  }

  /** Tracks written from offset Start(k) on leave every earlier position as it was. */
  lemma {:induction false} LayoutKeepsBefore(out: seq<real>, tracks: seq<seq<real>>, lens: seq<nat>, fadeLen: nat, gap: nat,
                                             crossfade: bool, k: nat, m: nat, q: nat)
    requires k <= m <= |tracks| == |lens| && OffsetsOk(lens, gap, Overlap(crossfade, fadeLen)) && q < |out|
    requires q < Start(lens, gap, Overlap(crossfade, fadeLen), k)
    ensures Layout(out, tracks, lens, fadeLen, gap, crossfade, m)[q] == Layout(out, tracks, lens, fadeLen, gap, crossfade, k)[q]
    decreases m
  {
    if m > k {
      LayoutKeepsBefore(out, tracks, lens, fadeLen, gap, crossfade, k, m - 1, q);
      StartMonotone(lens, gap, Overlap(crossfade, fadeLen), k, m - 1);
    }
  }

  /**
   * The final value at frame j of track k, when no later track reaches that
   * position: the track's sample written over what the earlier tracks left there.
   */
  lemma LayoutAtTrack(out: seq<real>, tracks: seq<seq<real>>, lens: seq<nat>, fadeLen: nat, gap: nat, crossfade: bool,
                      k: nat, j: nat)
    requires k < |tracks| == |lens| && OffsetsOk(lens, gap, Overlap(crossfade, fadeLen)) && j < |tracks[k]|
    requires var q := Start(lens, gap, Overlap(crossfade, fadeLen), k) + j;
             0 <= q < |out| && (k + 1 == |tracks| || q < Start(lens, gap, Overlap(crossfade, fadeLen), k + 1))
    ensures var q := Start(lens, gap, Overlap(crossfade, fadeLen), k) + j;
            Layout(out, tracks, lens, fadeLen, gap, crossfade, |tracks|)[q] ==
            Written(Layout(out, tracks, lens, fadeLen, gap, crossfade, k)[q], tracks[k][j], j, fadeLen, k == 0 || !crossfade)
  {
    var overlap := Overlap(crossfade, fadeLen);
    StartNonneg(lens, gap, overlap, k);
    var off := Start(lens, gap, overlap, k) as nat;
    var q := off + j;
    var before := Layout(out, tracks, lens, fadeLen, gap, crossfade, k);
    LayoutNext(out, tracks, lens, fadeLen, gap, crossfade, k);
    assert Layout(out, tracks, lens, fadeLen, gap, crossfade, k + 1)[q] ==
           Overlay(before, tracks[k], off, fadeLen, k == 0 || !crossfade)[q];
    assert Overlay(before, tracks[k], off, fadeLen, k == 0 || !crossfade)[q] ==
           Written(before[q], tracks[k][j], j, fadeLen, k == 0 || !crossfade);
    if k + 1 < |tracks| {
      LayoutKeepsBefore(out, tracks, lens, fadeLen, gap, crossfade, k + 1, |tracks|, q);
    }
  }

  /** The verbatim case of a track frame that no later track reaches. */
  lemma {:induction false} LayoutVerbatim(out: seq<real>, tracks: seq<seq<real>>, lens: seq<nat>, fadeLen: nat, gap: nat, crossfade: bool,
                       k: nat, j: nat)
    requires k < |tracks| == |lens| && OffsetsOk(lens, gap, Overlap(crossfade, fadeLen)) && j < |tracks[k]|
    requires k == 0 || !crossfade || j >= fadeLen
    requires var q := Start(lens, gap, Overlap(crossfade, fadeLen), k) + j;
             0 <= q < |out| && (k + 1 == |tracks| || q < Start(lens, gap, Overlap(crossfade, fadeLen), k + 1))
    ensures var q := Start(lens, gap, Overlap(crossfade, fadeLen), k) + j;
            Layout(out, tracks, lens, fadeLen, gap, crossfade, |tracks|)[q] == tracks[k][j]
  {
    var q := Start(lens, gap, Overlap(crossfade, fadeLen), k) + j;
    var before := Layout(out, tracks, lens, fadeLen, gap, crossfade, k);
    LayoutAtTrack(out, tracks, lens, fadeLen, gap, crossfade, k, j);
    WrittenIsSample(before[q], tracks[k][j], j, fadeLen, k == 0 || !crossfade);
  }

  /** In cut mode every frame of every track lands verbatim at its offset, as far as the output reaches. */
  lemma {:induction false} CutPlacesTracks(out: seq<real>, tracks: seq<seq<real>>, lens: seq<nat>, fadeLen: nat, gap: nat, k: nat, j: nat)
    requires k < |tracks| == |lens| && j < |tracks[k]| == lens[k]
    requires Start(lens, gap, 0, k) + j < |out|
    ensures OffsetsOk(lens, gap, Overlap(false, fadeLen))
    ensures var q := Start(lens, gap, 0, k) + j;
            q >= 0 && Layout(out, tracks, lens, fadeLen, gap, false, |tracks|)[q] == tracks[k][j]
  {
    var overlap := Overlap(false, fadeLen);
    assert overlap == 0;
    StartNonneg(lens, gap, overlap, k);
    var q := Start(lens, gap, overlap, k) + j;
    assert k + 1 < |tracks| ==> Start(lens, gap, overlap, k + 1) == q - j + lens[k] + gap;
    LayoutVerbatim(out, tracks, lens, fadeLen, gap, false, k, j);
  }

  /** In cut mode the frames between one track's end and the next one's start keep their initial value. */
  lemma CutGapsKeepOutput(out: seq<real>, tracks: seq<seq<real>>, lens: seq<nat>, fadeLen: nat, gap: nat, k: nat, q: nat)
    requires k + 1 < |tracks| == |lens| && q < |out|
    requires forall l :: 0 <= l < |tracks| ==> |tracks[l]| == lens[l]
    requires Start(lens, gap, 0, k) + lens[k] <= q < Start(lens, gap, 0, k + 1)
    ensures OffsetsOk(lens, gap, Overlap(false, fadeLen))
    ensures Layout(out, tracks, lens, fadeLen, gap, false, |tracks|)[q] == out[q]
  {
    assert Overlap(false, fadeLen) == 0;
    forall l | 0 <= l < |tracks|
      ensures !(Start(lens, gap, 0, l) <= q < Start(lens, gap, 0, l) + |tracks[l]|)
    {
      if l <= k {
        StartMonotone(lens, gap, 0, l + 1, k + 1);
      } else {
        StartMonotone(lens, gap, 0, k + 1, l);
      }
    }
    LayoutUntouched(out, tracks, lens, fadeLen, gap, false, |tracks|, q);
  }

  /** A crossfade starts from the sample already in the output: at frame 0 the new track is silent. */
  lemma FadeKeepsPrevious(prev: real, cur: real, fadeLen: nat)
    requires fadeLen > 0
    ensures Fade(prev, cur, 0, fadeLen) == prev
  {
  }

  lemma ProductNonneg(a: real, b: real)
    requires a >= 0.0 && b >= 0.0
    ensures a * b >= 0.0
  {
  }

  /** A crossfade frame lies between the outgoing and the incoming sample. */
  lemma FadeBetween(prev: real, cur: real, j: nat, fadeLen: nat)
    requires j < fadeLen
    ensures prev <= cur ==> prev <= Fade(prev, cur, j, fadeLen) <= cur
    ensures cur <= prev ==> cur <= Fade(prev, cur, j, fadeLen) <= prev
  {
    var f := FadeRatio(j, fadeLen);
    var v := Fade(prev, cur, j, fadeLen);
    assert v == prev * (1.0 - f) + cur * f;
    assert v - prev == (cur - prev) * f;
    assert cur - v == (cur - prev) * (1.0 - f);
    if prev <= cur {
      ProductNonneg(cur - prev, f);
      ProductNonneg(cur - prev, 1.0 - f);
    } else {
      ProductNonneg(prev - cur, f);
      ProductNonneg(prev - cur, 1.0 - f);
    }
  }

  /** `outputOffset` when source k is copied. */
  function TrackOffset(loaded: seq<AudioSource>, p: PlaylistSettings, k: nat): int
    requires k <= |loaded| && |loaded| >= 1 && Buffered(loaded) && SettingsOk(p)
  {
    Start(LengthsOf(Lefts(loaded)), GapFrames(loaded, p), Overlap(p.transition == Crossfade, FadeFrames(loaded, p)), k)
  }

  /** A successful playlist is a valid two-channel buffer at the first source's rate, its length the requested frames rounded down. */
  lemma PlaylistShape(loaded: seq<AudioSource>, p: PlaylistSettings)
    requires |loaded| >= 2 && Buffered(loaded) && SettingsOk(p) && NoBacktrack(loaded, p)
    requires PlaylistOf(loaded, p).Ok?
    ensures var b := PlaylistOf(loaded, p).value;
            && b.Valid() && b.NumberOfChannels() == 2 && b.sampleRate == loaded[0].buffer.value.sampleRate
            && b.length as real <= TotalFrames(loaded, p) < b.length as real + 1.0
  {
    AllocLengthIsFloor(TotalFrames(loaded, p));
  }

  /** When every source is mono, the right channel of the playlist is its left channel. */
  lemma MonoIsDuplicated(loaded: seq<AudioSource>, p: PlaylistSettings)
    requires |loaded| >= 2 && Buffered(loaded) && SettingsOk(p) && NoBacktrack(loaded, p)
    requires PlaylistOf(loaded, p).Ok?
    requires forall k :: 0 <= k < |loaded| ==> loaded[k].buffer.value.NumberOfChannels() == 1
    ensures PlaylistOf(loaded, p).value.channels[1] == PlaylistOf(loaded, p).value.channels[0]
  {
    assert Rights(loaded) == Lefts(loaded);
  }

  /** The channels of a successful playlist are the two layouts over silence. */
  lemma PlaylistChannels(loaded: seq<AudioSource>, p: PlaylistSettings)
    requires |loaded| >= 2 && Buffered(loaded) && SettingsOk(p) && NoBacktrack(loaded, p)
    requires PlaylistOf(loaded, p).Ok?
    ensures var b := PlaylistOf(loaded, p).value;
            var lens := LengthsOf(Lefts(loaded));
            var crossfade := p.transition == Crossfade;
            && |b.channels| == 2
            && b.channels[0] == Layout(Silence(b.length), Lefts(loaded), lens, FadeFrames(loaded, p), GapFrames(loaded, p), crossfade, |loaded|)
            && b.channels[1] == Layout(Silence(b.length), Rights(loaded), lens, FadeFrames(loaded, p), GapFrames(loaded, p), crossfade, |loaded|)
  {
  }

  /**
   * Frame j of source k lands verbatim at its offset when it is the first
   * source, in cut mode, or past the transition, unless a later source reaches that far.
   */
  lemma {:induction false} PlaylistVerbatimFrame(loaded: seq<AudioSource>, p: PlaylistSettings, k: nat, j: nat)
    requires |loaded| >= 2 && Buffered(loaded) && SettingsOk(p) && NoBacktrack(loaded, p)
    requires PlaylistOf(loaded, p).Ok?
    requires k < |loaded| && j < loaded[k].buffer.value.length
    requires k == 0 || p.transition == Cut || j >= FadeFrames(loaded, p)
    requires TrackOffset(loaded, p, k) + j < PlaylistOf(loaded, p).value.length
    requires k + 1 == |loaded| || TrackOffset(loaded, p, k) + j < TrackOffset(loaded, p, k + 1)
    ensures var b := PlaylistOf(loaded, p).value;
            var q := TrackOffset(loaded, p, k) + j;
            && q >= 0
            && b.channels[0][q] == loaded[k].buffer.value.Left()[j]
            && b.channels[1][q] == loaded[k].buffer.value.RightOrLeft()[j]
  {
    var b := PlaylistOf(loaded, p).value;
    var lefts, rights := Lefts(loaded), Rights(loaded);
    var lens := LengthsOf(lefts);
    var fadeLen, gap := FadeFrames(loaded, p), GapFrames(loaded, p);
    var crossfade := p.transition == Crossfade;
    var out := Silence(b.length);
    var q := TrackOffset(loaded, p, k) + j;
    var source := loaded[k].buffer.value;
    PlaylistChannels(loaded, p);
    FadeSite(loaded, p, k, j);
    assert k == 0 || !crossfade || j >= fadeLen;
    ChannelVerbatim(b.channels[0], out, lefts, lens, fadeLen, gap, crossfade, k, j, q, source.Left()[j]);
    ChannelVerbatim(b.channels[1], out, rights, lens, fadeLen, gap, crossfade, k, j, q, source.RightOrLeft()[j]);
  }

  /** `LayoutVerbatim` for one output channel, its offset and sample given by name. */
  lemma {:induction false} ChannelVerbatim(chan: seq<real>, out: seq<real>, tracks: seq<seq<real>>, lens: seq<nat>, fadeLen: nat, gap: nat,
                        crossfade: bool, k: nat, j: nat, q: int, sample: real)
    requires k < |tracks| == |lens| && OffsetsOk(lens, gap, Overlap(crossfade, fadeLen))
    requires j < |tracks[k]| && (k == 0 || !crossfade || j >= fadeLen) && sample == tracks[k][j]
    requires q == Start(lens, gap, Overlap(crossfade, fadeLen), k) + j
    requires 0 <= q < |out| && (k + 1 == |tracks| || q < Start(lens, gap, Overlap(crossfade, fadeLen), k + 1))
    requires chan == Layout(out, tracks, lens, fadeLen, gap, crossfade, |tracks|)
    ensures chan[q] == sample
  {
    LayoutVerbatim(out, tracks, lens, fadeLen, gap, crossfade, k, j);
  }

  /**
   * Inside the transition, a later source's frame j is, in each channel, the
   * crossfade of what the earlier sources left at that position with its own
   * sample.
   */
  lemma {:induction false} PlaylistCrossfadeFrame(loaded: seq<AudioSource>, p: PlaylistSettings, k: nat, j: nat)
    requires |loaded| >= 2 && Buffered(loaded) && SettingsOk(p) && NoBacktrack(loaded, p)
    requires PlaylistOf(loaded, p).Ok?
    requires 0 < k < |loaded| && j < loaded[k].buffer.value.length
    requires p.transition == Crossfade && j < FadeFrames(loaded, p)
    requires TrackOffset(loaded, p, k) + j < PlaylistOf(loaded, p).value.length
    requires k + 1 == |loaded| || TrackOffset(loaded, p, k) + j < TrackOffset(loaded, p, k + 1)
    ensures var b := PlaylistOf(loaded, p).value;
            var q := TrackOffset(loaded, p, k) + j;
            var before := Layout(Silence(b.length), Lefts(loaded), LengthsOf(Lefts(loaded)), FadeFrames(loaded, p),
                                 GapFrames(loaded, p), true, k);
            var beforeRight := Layout(Silence(b.length), Rights(loaded), LengthsOf(Lefts(loaded)), FadeFrames(loaded, p),
                                      GapFrames(loaded, p), true, k);
            && q >= 0
            && b.channels[0][q] == Fade(before[q], loaded[k].buffer.value.Left()[j], j, FadeFrames(loaded, p))
            && b.channels[1][q] == Fade(beforeRight[q], loaded[k].buffer.value.RightOrLeft()[j], j, FadeFrames(loaded, p))
  {
    var b := PlaylistOf(loaded, p).value;
    var lefts, rights := Lefts(loaded), Rights(loaded);
    var lens := LengthsOf(lefts);
    var fadeLen, gap := FadeFrames(loaded, p), GapFrames(loaded, p);
    var crossfade := p.transition == Crossfade;
    var out := Silence(b.length);
    var q := TrackOffset(loaded, p, k) + j;
    var source := loaded[k].buffer.value;
    PlaylistChannels(loaded, p);
    FadeSite(loaded, p, k, j);
    ChannelFade(b.channels[0], out, lefts, lens, fadeLen, gap, crossfade, k, j, q, source.Left()[j]);
    ChannelFade(b.channels[1], out, rights, lens, fadeLen, gap, crossfade, k, j, q, source.RightOrLeft()[j]);
  }

  /** Where frame j of source k lands: the facts `ChannelFade` needs, in the sources' terms. */
  lemma {:induction false} FadeSite(loaded: seq<AudioSource>, p: PlaylistSettings, k: nat, j: nat)
    requires |loaded| >= 2 && Buffered(loaded) && SettingsOk(p) && NoBacktrack(loaded, p)
    requires PlaylistOf(loaded, p).Ok?
    requires k < |loaded| && j < loaded[k].buffer.value.length
    requires TrackOffset(loaded, p, k) + j < PlaylistOf(loaded, p).value.length
    requires k + 1 == |loaded| || TrackOffset(loaded, p, k) + j < TrackOffset(loaded, p, k + 1)
    ensures var lens := LengthsOf(Lefts(loaded));
            var overlap := Overlap(p.transition == Crossfade, FadeFrames(loaded, p));
            var q := TrackOffset(loaded, p, k) + j;
            && |Lefts(loaded)| == |Rights(loaded)| == |lens| == |loaded|
            && j < |Lefts(loaded)[k]| && j < |Rights(loaded)[k]|
            && Lefts(loaded)[k][j] == loaded[k].buffer.value.Left()[j]
            && Rights(loaded)[k][j] == loaded[k].buffer.value.RightOrLeft()[j]
            && OffsetsOk(lens, GapFrames(loaded, p), overlap)
            && q == Start(lens, GapFrames(loaded, p), overlap, k) + j
            && 0 <= q < |Silence(PlaylistOf(loaded, p).value.length)|
            && (k + 1 == |loaded| || q < Start(lens, GapFrames(loaded, p), overlap, k + 1))
  {
    StartNonneg(LengthsOf(Lefts(loaded)), GapFrames(loaded, p), Overlap(p.transition == Crossfade, FadeFrames(loaded, p)), k);
  }

  /** `CrossfadeAt` for one output channel, its offset and sample given by name. */
  lemma {:induction false} ChannelFade(chan: seq<real>, out: seq<real>, tracks: seq<seq<real>>, lens: seq<nat>, fadeLen: nat, gap: nat,
                    crossfade: bool, k: nat, j: nat, q: int, sample: real)
    requires crossfade && 0 < k < |tracks| == |lens| && OffsetsOk(lens, gap, Overlap(crossfade, fadeLen))
    requires j < |tracks[k]| && j < fadeLen && sample == tracks[k][j]
    requires q == Start(lens, gap, Overlap(crossfade, fadeLen), k) + j
    requires 0 <= q < |out| && (k + 1 == |tracks| || q < Start(lens, gap, Overlap(crossfade, fadeLen), k + 1))
    requires chan == Layout(out, tracks, lens, fadeLen, gap, crossfade, |tracks|)
    ensures chan[q] == Fade(Layout(out, tracks, lens, fadeLen, gap, true, k)[q], sample, j, fadeLen)
  {
    CrossfadeAt(out, tracks, lens, fadeLen, gap, crossfade, k, j);
  }

  lemma CrossfadeAt(out: seq<real>, tracks: seq<seq<real>>, lens: seq<nat>, fadeLen: nat, gap: nat, crossfade: bool,
                    k: nat, j: nat)
    requires crossfade && 0 < k < |tracks| == |lens| && OffsetsOk(lens, gap, Overlap(crossfade, fadeLen))
    requires j < |tracks[k]| && j < fadeLen
    requires var q := Start(lens, gap, Overlap(crossfade, fadeLen), k) + j;
             0 <= q < |out| && (k + 1 == |tracks| || q < Start(lens, gap, Overlap(crossfade, fadeLen), k + 1))
    ensures var q := Start(lens, gap, Overlap(crossfade, fadeLen), k) + j;
            Layout(out, tracks, lens, fadeLen, gap, crossfade, |tracks|)[q] ==
            Fade(Layout(out, tracks, lens, fadeLen, gap, crossfade, k)[q], tracks[k][j], j, fadeLen)
  {
    var q := Start(lens, gap, Overlap(crossfade, fadeLen), k) + j;
    var before := Layout(out, tracks, lens, fadeLen, gap, crossfade, k);
    LayoutAtTrack(out, tracks, lens, fadeLen, gap, crossfade, k, j);
    WrittenIsFade(before[q], tracks[k][j], j, fadeLen, k == 0 || !crossfade);
  }

  /** In cut mode the frames between one source's end and the next one's start are silent. */
  lemma CutGapsAreSilent(loaded: seq<AudioSource>, p: PlaylistSettings, k: nat, q: nat)
    requires |loaded| >= 2 && Buffered(loaded) && SettingsOk(p) && NoBacktrack(loaded, p) && p.transition == Cut
    requires PlaylistOf(loaded, p).Ok?
    requires k + 1 < |loaded| && q < PlaylistOf(loaded, p).value.length
    requires TrackOffset(loaded, p, k) + loaded[k].buffer.value.length <= q < TrackOffset(loaded, p, k + 1)
    ensures PlaylistOf(loaded, p).value.channels[0][q] == 0.0 && PlaylistOf(loaded, p).value.channels[1][q] == 0.0
  {
    var b := PlaylistOf(loaded, p).value;
    var lens := LengthsOf(Lefts(loaded));
    var fadeLen := FadeFrames(loaded, p);
    var gap := GapFrames(loaded, p);
    assert Overlap(false, fadeLen) == 0;
    CutGapsKeepOutput(Silence(b.length), Lefts(loaded), lens, fadeLen, gap, k, q);
    CutGapsKeepOutput(Silence(b.length), Rights(loaded), lens, fadeLen, gap, k, q);
  }

  /** The gap and the transition are whole numbers of frames at the first source's rate. */
  predicate WholeFrames(loaded: seq<AudioSource>, p: PlaylistSettings)
    requires |loaded| >= 1 && Buffered(loaded) && SettingsOk(p)
  {
    var rate := loaded[0].buffer.value.sampleRate;
    FramesAt(p.gapTime, rate) == GapFrames(loaded, p) as real &&
    FramesAt(p.transitionDuration, rate) == FadeFrames(loaded, p) as real
  }

  /** One step of the running total, converted to frames term by term. */
  lemma StepAtRate(before: real, d: real, gap: real, transition: real, rate: nat, notLast: bool, crossfade: bool)
    ensures FramesAt(if notLast then (if crossfade then before + d + gap - transition else before + d + gap) else before + d, rate) ==
            FramesAt(before, rate) + FramesAt(d, rate) +
            (if notLast then FramesAt(gap, rate) - (if crossfade then FramesAt(transition, rate) else 0.0) else 0.0)
  {
    FramesAtLinear(before, d, rate);
    FramesAtLinear(before + d, gap, rate);
    FramesAtLinear(before + d + gap, transition, rate);
  }

  /** With one rate and whole-frame settings, the running total in seconds is the write offset in frames. */
  lemma {:induction false} SecondsAreOffsets(loaded: seq<AudioSource>, p: PlaylistSettings, k: nat)
    requires |loaded| >= 1 && Buffered(loaded) && SettingsOk(p) && OneRate(loaded) && WholeFrames(loaded, p)
    requires k <= |loaded|
    ensures FramesAt(SecondsUpTo(loaded, p, k), loaded[0].buffer.value.sampleRate) == TrackOffset(loaded, p, k) as real
  {
    if k > 0 {
      var rate := loaded[0].buffer.value.sampleRate;
      SecondsAreOffsets(loaded, p, k - 1);
      var before := SecondsUpTo(loaded, p, k - 1);
      var d := DurationOf(loaded[k - 1]);
      FramesOfDuration(loaded[k - 1].buffer.value, d, rate);
      StepAtRate(before, d, p.gapTime, p.transitionDuration, rate, k - 1 < |loaded| - 1, p.transition == Crossfade);
      var step := if k - 1 < |loaded| - 1 then GapFrames(loaded, p) - Overlap(p.transition == Crossfade, FadeFrames(loaded, p)) else 0;
      assert TrackOffset(loaded, p, k) == TrackOffset(loaded, p, k - 1) + loaded[k - 1].buffer.value.length + step;
    }
  }

  /**
   * With one rate and whole-frame settings the output ends exactly at the
   * final write offset, so nothing is cut off; in cut mode every source fits whole.
   */
  lemma PlaylistEndsAtLastOffset(loaded: seq<AudioSource>, p: PlaylistSettings)
    requires |loaded| >= 2 && Buffered(loaded) && SettingsOk(p) && NoBacktrack(loaded, p)
    requires OneRate(loaded) && WholeFrames(loaded, p)
    ensures PlaylistOf(loaded, p).Ok?
    ensures PlaylistOf(loaded, p).value.length == TrackOffset(loaded, p, |loaded|)
    ensures p.transition == Cut ==>
              forall k :: 0 <= k < |loaded| ==>
                TrackOffset(loaded, p, k) + loaded[k].buffer.value.length <= PlaylistOf(loaded, p).value.length
  {
    var lens := LengthsOf(Lefts(loaded));
    var gap := GapFrames(loaded, p);
    var overlap := Overlap(p.transition == Crossfade, FadeFrames(loaded, p));
    var n := |loaded|;
    SecondsAreOffsets(loaded, p, n);
    StartNonneg(lens, gap, overlap, n - 1);
    assert TrackOffset(loaded, p, n) >= 1;
    assert TotalFrames(loaded, p) == TrackOffset(loaded, p, n) as real;
    if p.transition == Cut {
      forall k | 0 <= k < n
        ensures TrackOffset(loaded, p, k) + loaded[k].buffer.value.length <= TrackOffset(loaded, p, n)
      {
        StartMonotone(lens, gap, overlap, k + 1, n);
      }
    }
  }
}
