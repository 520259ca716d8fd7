/**
 * The song masher page's processing state: the guards of `processAudio`, the
 * simulated progress interval, the hand-over of the composed buffer, and the
 * bytes and file name of a download.
 */
module SongMasher {
  import opened Wrappers
  import opened AudioBuffers
  import JsStrings
  import Mashup
  import Playlist
  import Wav

  datatype Mode = Mash | PlaylistMode

  /** The mode's name as it appears in the result's name: `'mash'` or `'playlist'`. */
  function ModeName(mode: Mode): (name: string)
    ensures name == "mash" <==> mode == Mash
  {
    match mode
    case Mash => "mash"
    case PlaylistMode => "playlist"
  }

  /** The toasts `processAudio` and `downloadResult` raise. */
  datatype Notice =
    | NeedMoreTracks(mode: Mode)           // "Need more tracks"
    | WaitForTracks                        // "Wait for tracks to load"
    | Succeeded(mode: Mode)                // "Success!"
    | ProcessingFailed(error: ComposeError) // "Processing failed"
    | DownloadStarted                      // "Download started"
    | DownloadComplete                     // "Download complete"
    | DownloadFailed                       // "Download failed"

  /** One firing of the progress interval: `Math.min(prev + Math.random() * 20, 90)`, `random` in [0, 1). */
  function ProgressTick(prev: real, random: real): (next: real)
    requires 0.0 <= random < 1.0
    ensures next <= 90.0
    ensures prev <= 90.0 ==> prev <= next < prev + 20.0
    ensures prev > 90.0 ==> next == 90.0
  {
    var raised := prev + random * 20.0;
    if raised < 90.0 then raised else 90.0
  }

  /** The progress after the interval has fired once for each of `randoms`, in order. */
  function Ticks(prev: real, randoms: seq<real>): real
    requires forall k :: 0 <= k < |randoms| ==> 0.0 <= randoms[k] < 1.0
    decreases |randoms|
  {
    if randoms == [] then prev else Ticks(ProgressTick(prev, randoms[0]), randoms[1..])
  }

  /**
   * However often it fires, the simulation never raises progress past 90 nor
   * lowers it from anywhere at or below 90; from above 90 (a completed run's
   * 100) one firing brings it down to 90.
   */
  lemma {:induction false} TicksStayBelowNinety(prev: real, randoms: seq<real>)
    requires forall k :: 0 <= k < |randoms| ==> 0.0 <= randoms[k] < 1.0
    ensures prev <= 90.0 ==> prev <= Ticks(prev, randoms) <= 90.0
    ensures randoms != [] ==> Ticks(prev, randoms) <= 90.0
    decreases |randoms|
  {
    if randoms != [] {
      var next := ProgressTick(prev, randoms[0]);
      TicksStayBelowNinety(next, randoms[1..]);
    }
  }

  /**
   * What the selected compositor yields for the loaded sources: `createMashup`
   * in mash mode, `createPlaylist` otherwise, each with its own guards.
   */
  function Composed(mode: Mode, analyzerReady: bool, loaded: seq<AudioSource>,
                    ms: Mashup.MashSettings, ps: Playlist.PlaylistSettings): Result<AudioBuffer, ComposeError>
    requires Buffered(loaded) && Mashup.SettingsOk(ms) && Playlist.SettingsOk(ps)
    requires mode == PlaylistMode && |loaded| >= 1 ==> Playlist.NoBacktrack(loaded, ps)
  {
    if !analyzerReady then Err(AnalyzerNotInitialized)
    else if |loaded| < 2 then Err(NeedTwoLoadedTracks)
    else if mode == Mash then Mashup.MashupOf(loaded, ms)
    else Playlist.PlaylistOf(loaded, ps)
  }

  /**
   * Past `processAudio`'s own guard the compositors' "need two tracks" error
   * cannot occur: a run either fails to initialise or allocate, or yields a
   * valid stereo buffer at the first loaded source's sample rate.
   */
  lemma ComposedOutcome(mode: Mode, analyzerReady: bool, loaded: seq<AudioSource>,
                        ms: Mashup.MashSettings, ps: Playlist.PlaylistSettings)
    requires Buffered(loaded) && Mashup.SettingsOk(ms) && Playlist.SettingsOk(ps)
    requires mode == PlaylistMode && |loaded| >= 1 ==> Playlist.NoBacktrack(loaded, ps)
    requires |loaded| >= 2
    ensures Composed(mode, analyzerReady, loaded, ms, ps) != Err(NeedTwoLoadedTracks)
    ensures analyzerReady ==> Composed(mode, analyzerReady, loaded, ms, ps) != Err(AnalyzerNotInitialized)
    ensures Composed(mode, analyzerReady, loaded, ms, ps).Ok? ==>
              var b := Composed(mode, analyzerReady, loaded, ms, ps).value;
              b.Valid() && b.NumberOfChannels() == 2 && b.sampleRate == loaded[0].buffer.value.sampleRate
  {
    if analyzerReady && mode == Mash && Mashup.MashupOf(loaded, ms).Ok? {
      Mashup.MashupShape(loaded, ms);
    } else if analyzerReady && mode == PlaylistMode && Playlist.PlaylistOf(loaded, ps).Ok? {
      Playlist.PlaylistShape(loaded, ps);
    }
  }

  /** The `mode === 'mash'` choice of compositor in `processAudio`. */
  method Compose(mode: Mode, analyzerReady: bool, loaded: seq<AudioSource>,
                 ms: Mashup.MashSettings, ps: Playlist.PlaylistSettings) returns (r: Result<AudioBuffer, ComposeError>)
    requires Buffered(loaded) && Mashup.SettingsOk(ms) && Playlist.SettingsOk(ps)
    requires mode == PlaylistMode && |loaded| >= 1 ==> Playlist.NoBacktrack(loaded, ps)
    ensures r == Composed(mode, analyzerReady, loaded, ms, ps)
    ensures |loaded| >= 2 && r.Ok? ==> r.value.Valid()
  {
    assert WithBuffer(loaded) == loaded by {
      BufferedKeepsAll(loaded);
    }
    if mode == Mash {
      r := Mashup.CreateMashup(analyzerReady, loaded, ms);
    } else {
      r := Playlist.CreatePlaylist(analyzerReady, loaded, ps);
    }
    if |loaded| >= 2 {
      ComposedOutcome(mode, analyzerReady, loaded, ms, ps);
    }
  }

  /** What `downloadResult` hands to the browser: the WAV bytes and the file name. */
  datatype Download = Download(bytes: seq<Wav.Byte>, filename: string)

  /** The component state of the song masher page that processing reads and writes. */
  class Masher {
    var mode: Mode
    var audioSources: seq<AudioSource>
    var analyzerReady: bool
    var isProcessing: bool
    var processingProgress: real
    var processedAudioBuffer: Option<AudioBuffer>
    var currentTrack: Option<string>
    var mashSettings: Mashup.MashSettings
    var playlistSettings: Playlist.PlaylistSettings
    /** The progress intervals started and never cleared. */
    var progressIntervals: nat
    var notices: seq<Notice>

    predicate Valid()
      reads this
    {
      && AllBuffersValid(audioSources)
      && Mashup.SettingsOk(mashSettings) && Playlist.SettingsOk(playlistSettings)
      && (processedAudioBuffer.Some? ==> processedAudioBuffer.value.Valid())
      && 0.0 <= processingProgress <= 100.0
    }

    /** In playlist mode the loaded tracks' write offsets never move backwards. */
    predicate PlaylistReady()
      reads this
      requires Valid()
    {
      var loaded := LoadedWithBuffer(audioSources);
      mode == PlaylistMode && |loaded| >= 1 ==> Playlist.NoBacktrack(loaded, playlistSettings)
    }

    /** The page's initial state: the `useState` defaults. */
    constructor ()
      ensures Valid()
      ensures mode == Mash && audioSources == [] && !analyzerReady && !isProcessing
      ensures processingProgress == 0.0 && processedAudioBuffer == None && currentTrack == None
      ensures mashSettings == Mashup.MashSettings(50.0, 3.0, 100.0)
      ensures playlistSettings == Playlist.PlaylistSettings(Playlist.Crossfade, 2.0, 0.0)
      ensures progressIntervals == 0 && notices == []
    {
      mode := Mash;
      audioSources := [];
      analyzerReady := false;
      isProcessing := false;
      processingProgress := 0.0;
      processedAudioBuffer := None;
      currentTrack := None;
      mashSettings := Mashup.MashSettings(50.0, 3.0, 100.0);
      playlistSettings := Playlist.PlaylistSettings(Playlist.Crossfade, 2.0, 0.0);
      progressIntervals := 0;
      notices := [];
    }

    /** A guard of `processAudio` stopped it: a toast, and no other change of state. */
    twostate predicate OnlyNotified(n: Notice)
      reads this
    {
      && notices == old(notices) + [n]
      && isProcessing == old(isProcessing) && processingProgress == old(processingProgress)
      && processedAudioBuffer == old(processedAudioBuffer) && currentTrack == old(currentTrack)
      && progressIntervals == old(progressIntervals)
    }

    /**
     * The end of a run of `processAudio` that passed its guards: `clearInterval`
     * and the result on success; on failure the reset of the progress bar only.
     */
    method Finish(processed: Result<AudioBuffer, ComposeError>, now: nat)
      requires Valid() && progressIntervals > 0
      requires processed.Ok? ==> processed.value.Valid()
      modifies this
      ensures Valid()
      ensures mode == old(mode) && audioSources == old(audioSources) && analyzerReady == old(analyzerReady)
      ensures mashSettings == old(mashSettings) && playlistSettings == old(playlistSettings)
      ensures !isProcessing
      ensures processed.Ok? ==>
                && processingProgress == 100.0 && processedAudioBuffer == Some(processed.value)
                && currentTrack == Some(ModeName(mode) + "-result-" + JsStrings.Decimal(now))
                && progressIntervals == old(progressIntervals) - 1
                && notices == old(notices) + [Succeeded(mode)]
      ensures processed.Err? ==>
                && processingProgress == 0.0
                && processedAudioBuffer == old(processedAudioBuffer) && currentTrack == old(currentTrack)
                && progressIntervals == old(progressIntervals)
                && notices == old(notices) + [ProcessingFailed(processed.error)]
    {
      match processed
      case Ok(b) =>
        progressIntervals := progressIntervals - 1;
        processingProgress := 100.0;
        processedAudioBuffer := Some(b);
        currentTrack := Some(ModeName(mode) + "-result-" + JsStrings.Decimal(now));
        isProcessing := false;
        notices := notices + [Succeeded(mode)];
      case Err(e) =>
        isProcessing := false;
        processingProgress := 0.0;
        notices := notices + [ProcessingFailed(e)];
    }

    /**
     * `processAudio`, with `now` the value of `Date.now()`. The compositors
     * run to completion before any interval callback can fire, so a run moves
     * progress straight from 0 to 100 or back to 0; a failed run leaves its
     * interval running.
     */
    method ProcessAudio(now: nat)
      requires Valid() && PlaylistReady()
      modifies this
      ensures Valid()
      ensures mode == old(mode) && audioSources == old(audioSources) && analyzerReady == old(analyzerReady)
      ensures mashSettings == old(mashSettings) && playlistSettings == old(playlistSettings)
      ensures |audioSources| < 2 ==>
                OnlyNotified(NeedMoreTracks(mode))
      ensures |audioSources| >= 2 && |LoadedWithBuffer(audioSources)| < 2 ==>
                OnlyNotified(WaitForTracks)
      ensures |LoadedWithBuffer(audioSources)| >= 2 ==>
                var processed := Composed(mode, analyzerReady, LoadedWithBuffer(audioSources), mashSettings, playlistSettings);
                && !isProcessing
                && (processed.Ok? ==>
                      && processingProgress == 100.0 && processedAudioBuffer == Some(processed.value)
                      && currentTrack == Some(ModeName(mode) + "-result-" + JsStrings.Decimal(now))
                      && progressIntervals == old(progressIntervals)
                      && notices == old(notices) + [Succeeded(mode)])
                && (processed.Err? ==>
                      && processingProgress == 0.0
                      && processedAudioBuffer == old(processedAudioBuffer) && currentTrack == old(currentTrack)
                      && progressIntervals == old(progressIntervals) + 1
                      && notices == old(notices) + [ProcessingFailed(processed.error)])
    {
      if |audioSources| < 2 {
        notices := notices + [NeedMoreTracks(mode)];
        return;
      }
      var loadedSources := LoadedWithBuffer(audioSources);
      if |loadedSources| < 2 {
        notices := notices + [WaitForTracks];
        return;
      }
      isProcessing := true;
      processingProgress := 0.0;
      progressIntervals := progressIntervals + 1;
      var processed := Compose(mode, analyzerReady, loadedSources, mashSettings, playlistSettings);
      Finish(processed, now);
    }

    /** One firing of a progress interval that is still running. */
    method Tick(random: real)
      requires Valid() && progressIntervals > 0 && 0.0 <= random < 1.0
      modifies this
      ensures Valid()
      ensures processingProgress == ProgressTick(old(processingProgress), random)
      ensures mode == old(mode) && audioSources == old(audioSources) && analyzerReady == old(analyzerReady)
      ensures isProcessing == old(isProcessing) && processedAudioBuffer == old(processedAudioBuffer)
      ensures currentTrack == old(currentTrack) && mashSettings == old(mashSettings) && playlistSettings == old(playlistSettings)
      ensures progressIntervals == old(progressIntervals) && notices == old(notices)
    {
      processingProgress := ProgressTick(processingProgress, random);
    }

    /**
     * `downloadResult` with `now` the value of `Date.now()`: nothing without a
     * result or an analyser; otherwise a "Download started" toast, then the
     * file and "Download complete", or "Download failed" when a step of the
     * `try` block throws, which `delivered` tells.
     */
    method DownloadResult(now: nat, delivered: bool) returns (d: Option<Download>)
      requires Valid()
      modifies this
      ensures Valid()
      ensures mode == old(mode) && audioSources == old(audioSources) && analyzerReady == old(analyzerReady)
      ensures isProcessing == old(isProcessing) && processingProgress == old(processingProgress)
      ensures processedAudioBuffer == old(processedAudioBuffer) && currentTrack == old(currentTrack)
      ensures mashSettings == old(mashSettings) && playlistSettings == old(playlistSettings)
      ensures progressIntervals == old(progressIntervals)
      ensures old(processedAudioBuffer.None? || !analyzerReady) ==> d.None? && notices == old(notices)
      ensures old(processedAudioBuffer.Some? && analyzerReady) ==>
                notices == old(notices) + [DownloadStarted, if delivered then DownloadComplete else DownloadFailed]
      ensures d.Some? <==> processedAudioBuffer.Some? && analyzerReady && delivered
      ensures d.Some? ==>
                d.value.bytes == Wav.WavBytes(processedAudioBuffer.value)
                && d.value.filename == ModeName(mode) + "-result-" + JsStrings.Decimal(now) + ".wav"
    {
      if processedAudioBuffer.None? || !analyzerReady {
        return None;
      }
      notices := notices + [DownloadStarted];
      var view := Wav.ExportAudioBuffer(processedAudioBuffer.value);
      if delivered {
        d := Some(Download(view[..], ModeName(mode) + "-result-" + JsStrings.Decimal(now) + ".wav"));
        notices := notices + [DownloadComplete];
      } else {
        d := None;
        notices := notices + [DownloadFailed];
      }
    }
  }
}
