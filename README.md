# showcase-app core, modelled in Dafny

This project models the parts of the showcase web app that hold real logic.

- **Song masher's offline audio engine.** The peak-counting BPM estimate, the mashup and playlist compositors that write stereo output buffers in place, the hand-written WAV serialiser, and the state changes of `processAudio` and `downloadResult` around them.
- **Toast store.** A pure reducer that keeps at most three toasts, plus the module-level state that `dispatch` replaces and announces to every registered listener.
- **Recipe chat helpers.** Pulling a fenced JSON recipe out of a reply, the text shown in its place, sender names in the stored history, the send guard, the session summary, and the shared or downloaded recipe text and file name.
- **Resume AI-response handler.** The prompt and options chosen by `includeCoverLetter`, the greedy `{…}` span of the model's answer, and the choice between parsed and fallback content.
- **Music visualizer bookkeeping.** Layer-list edits, the spectrum-bin index each drawing routine reads (always in bounds), and the particle buffer's per-frame upkeep.

The modules and what they hold:

| file | module | role |
|---|---|---|
| `wrappers.dfy` | `Wrappers` | `Option` and `Result` |
| `js_strings.dfy` | `JsStrings` | the JavaScript string operations the code relies on: `indexOf`/`includes`, `trim`, `Number.prototype.toString`, `join`, `split`, `substring` |
| `audio_buffers.dfy` | `AudioBuffers` | Web Audio `AudioBuffer` values, the song masher's source list and its `filter`/`map` updates, seconds↔frames conversions, `createBuffer`'s length |
| `bpm.dfy` | `BpmDetector` | `AudioAnalyzer.detectBPM` |
| `mashup.dfy` | `Mashup` | `createMashup` |
| `playlist.dfy` | `Playlist` | `createPlaylist` |
| `wav.dfy` | `Wav` | `exportAudioBuffer`: the 44-byte RIFF/WAVE PCM header and interleaved 16-bit little-endian samples, written into a `DataView` (an `array`) |
| `song_masher.dfy` | `SongMasher` | the page state class `Masher`: `processAudio`, the progress interval, `downloadResult` |
| `toast.dfy` | `Toasts` | `reducer`, and the class `ToastStore` (`dispatch`, `toast`, `dismiss`, listener subscribe/unsubscribe) |
| `recipe.dfy` | `RecipeChat` | the recipe assistant's text helpers |
| `resume.dfy` | `ResumeBuilder` | `generateResume` |
| `visualizer.dfy` | `Visualizer` | layers, bin indices, and the class `ParticleField` for `particlesRef` |

The code mutates things in four places, and the model mutates the same things:
- the compositors' output channels, which are arrays written by `while` loops;
- the WAV `DataView`, an array filled at a running offset;
- the page state in `processAudio`, the fields of `Masher`;
- the toast store's `memoryState` and `listeners`, and the particle buffer, which are class fields.

Every such method is proved against a specification function: `Mashup.MashupOf`, `Playlist.PlaylistOf`/`Layout`, `Wav.WavBytes`, `Toasts.Reducer`, `Visualizer.Advanced`. The source's promises are proved about those functions as lemmas.

Samples, durations and ratios are Dafny `real`, which is exact rational arithmetic. Sample counts are `nat`. `Math.floor` is `.Floor`. The float-to-int16 conversion is written out as truncation toward zero of `clamp(s, -1, 1) * 32767`.

Inputs the code takes from the environment are parameters:
- `Date.now()`, as `now`;
- `Math.random()` draws, as reals in [0, 1);
- `JSON.parse`, as a partial function `string -> Option<…>`, where `None` means it throws;
- the answer of the AI service, as `Option<string>`, where `None` means the call throws.

## Model

| member | source | states |
|---|---|---|
| JsStrings.IndexOf | app/routes/chat.recipe-assistant/route.tsx:119 | the result is the first position at or after `from` where the pattern occurs, and None exactly when it occurs nowhere from there |
| JsStrings.IncludesIff | app/routes/chat.recipe-assistant/route.tsx:204 | `includes` holds exactly when the pattern occurs at some position |
| JsStrings.Trim | app/routes/chat.recipe-assistant/route.tsx:124 | definition; its properties are `TrimIsSlice`, `TrimStart`, `TrimEnd`, `TrimCutsSpace`, `TrimEmptyIff` |
| JsStrings.TrimIsSlice | app/routes/chat.recipe-assistant/route.tsx:124 | `trim()` returns a contiguous slice of its input that starts after the leading white space |
| JsStrings.TrimStart | app/routes/chat.recipe-assistant/route.tsx:124 | the start-trimmed text is no longer than the input and does not begin with white space |
| JsStrings.TrimEnd | app/routes/chat.recipe-assistant/route.tsx:124 | the end-trimmed text is no longer than the input and does not end with white space |
| JsStrings.TrimCutsSpace | app/routes/chat.recipe-assistant/route.tsx:124 | everything `trim()` drops after its result is white space (with `TrimIsSlice` and the leading-space count: trimming drops exactly the white space at both ends) |
| JsStrings.TrimEmptyIff | app/routes/chat.recipe-assistant/route.tsx:170 | a string trims to "" exactly when every character is white space or a line terminator |
| JsStrings.Decimal | app/hooks/use-toast.ts:62 | `toString()` of a natural: a non-empty run of decimal digits without a leading zero |
| JsStrings.DecimalRoundTrip | app/hooks/use-toast.ts:62 | the digits parse back to the number, so distinct `Date.now()` values give distinct ids |
| JsStrings.JoinConcat | app/routes/chat.recipe-assistant/route.tsx:300 | `join` of a concatenation is the two joins with one separator between them |
| JsStrings.SplitJoin | app/routes/chat.recipe-assistant/route.tsx:300 | splitting a `join(sep)` at the separator gives back the pieces when no piece contains it |
| JsStrings.Prefix | app/routes/chat.recipe-assistant/route.tsx:257 | `substring(0, n)` is the first min(n, length) characters, counted as characters rather than code units |
| AudioBuffers.AudioBuffer.DurationTimesRate | app/routes/tool.song-masher/route.tsx:644-646 | a buffer's duration is its frame count over its sample rate |
| AudioBuffers.AudioBuffer.LongerAtSameRate | app/routes/tool.song-masher/route.tsx:644 | at equal rates the longer duration is the longer frame count, in both directions |
| AudioBuffers.AudioBuffer.RightOrLeft | app/routes/tool.song-masher/route.tsx:658-660 | channel 1 when there is one, else channel 0; same length; a mono buffer reads its left channel |
| AudioBuffers.WithBuffer | app/routes/tool.song-masher/route.tsx:639 | `filter(s => s.audioBuffer)`: the result is drawn from the sources, every entry has a buffer, and validity is kept |
| AudioBuffers.WithBufferMembers | app/routes/tool.song-masher/route.tsx:639 | a source is kept exactly when it is in the list and has a buffer |
| AudioBuffers.WithBufferConcat | app/routes/tool.song-masher/route.tsx:639 | the filter keeps order: filtering a concatenation concatenates the filtered parts |
| AudioBuffers.LoadedWithBuffer | app/routes/tool.song-masher/route.tsx:774 | `filter(s => s.isLoaded && s.audioBuffer)`: the result is drawn from the sources, every entry is loaded and buffered |
| AudioBuffers.LoadedWithBufferMembers | app/routes/tool.song-masher/route.tsx:774 | a source is kept exactly when it is loaded and has a buffer |
| AudioBuffers.LoadedWithBufferConcat | app/routes/tool.song-masher/route.tsx:774 | the filter keeps order, so tracks reach the compositors in list order |
| AudioBuffers.WithBufferOfLoaded | app/routes/tool.song-masher/route.tsx:774 | the compositors' own filter keeps every source `processAudio` hands them |
| AudioBuffers.BufferedKeepsAll | app/routes/tool.song-masher/route.tsx:639 | filtering a list whose entries all have buffers changes nothing |
| AudioBuffers.WithBufferIsBuffered | app/routes/tool.song-masher/route.tsx:639 | after the filter every source has a buffer |
| AudioBuffers.FramesOfDuration | app/routes/tool.song-masher/route.tsx:646 | `duration * sampleRate` at the buffer's own rate is its frame count |
| AudioBuffers.FramesAtLinear | app/routes/tool.song-masher/route.tsx:712-724 | seconds-to-frames conversion distributes over sums and differences |
| AudioBuffers.SecondsToSamplesIsFloor | app/routes/tool.song-masher/route.tsx:709-710 | `Math.floor(seconds * rate)` is the greatest whole frame count not above the exact product |
| AudioBuffers.AllocLength | app/routes/tool.song-masher/route.tsx:646 | `createBuffer` succeeds exactly when the requested length truncates to at least one frame |
| AudioBuffers.AllocLengthIsFloor | app/routes/tool.song-masher/route.tsx:646 | the allocated length is the requested length rounded down |
| AudioBuffers.MarkLoaded | app/routes/tool.song-masher/route.tsx:558-568 | the `map` after loading: the entry with the id becomes loaded with the buffer and tempo; every other entry is unchanged; length and order are kept |
| AudioBuffers.MarkLoadedIsReady | app/routes/tool.song-masher/route.tsx:558-568 | a freshly loaded entry passes `processAudio`'s filter, and no id changes |
| AudioBuffers.RemoveSource | app/routes/tool.song-masher/route.tsx:615-617 | the filter by id: no entry with the id is left, and every other entry is still there |
| AudioBuffers.RemoveSourceConcat | app/routes/tool.song-masher/route.tsx:615-617 | removal keeps the remaining sources in order |
| BpmDetector.FarEnoughIsRefractory | app/routes/tool.song-masher/route.tsx:307 | a candidate counts only more than `0.3 * sampleRate` frames after the last counted peak |
| BpmDetector.Peaks | app/routes/tool.song-masher/route.tsx:301-312 | the counted indices are increasing, lie in 1..len-2, and each is a signed local maximum above 0.3 that passes the refractory check against the previous one, with the first checked against 0 |
| BpmDetector.SkippedCandidateIsTooClose | app/routes/tool.song-masher/route.tsx:306-311 | a candidate that is not counted is too close to the peak counted before it |
| BpmDetector.CountPeaks | app/routes/tool.song-masher/route.tsx:301-312 | the `peaks`/`lastPeak` loop returns the number of counted peaks |
| BpmDetector.Round | app/routes/tool.song-masher/route.tsx:315 | `Math.round`: the integer within a half-open half unit of its argument |
| BpmDetector.ClampBpm | app/routes/tool.song-masher/route.tsx:316 | `Math.max(60, Math.min(200, v))`: in [60, 200], identity inside, the bound outside |
| BpmDetector.DetectBpm | app/routes/tool.song-masher/route.tsx:295-317 | the result is round(peaks / duration * 60) clamped, for the peaks of channel 0, and lies in [60, 200] |
| BpmDetector.PeaksSpread | app/routes/tool.song-masher/route.tsx:307-310 | successive counted peaks are more than 0.3 s apart |
| BpmDetector.SpreadAppend | app/routes/tool.song-masher/route.tsx:307-310 | counting a peak far enough from the last one keeps its spacing |
| BpmDetector.PeakCountBound | app/routes/tool.song-masher/route.tsx:305-312 | there are fewer peaks than duration / 0.3 s |
| BpmDetector.RawEstimateBelow200 | app/routes/tool.song-masher/route.tsx:315-316 | the unclamped estimate is already below 200 BPM, so the upper clamp never applies |
| BpmDetector.SilenceIsSixty | app/routes/tool.song-masher/route.tsx:315-316 | a buffer with no peak gives 60 BPM |
| Mashup.Longest | app/routes/tool.song-masher/route.tsx:644 | an index of a source whose duration is the greatest |
| Mashup.MaxDuration | app/routes/tool.song-masher/route.tsx:644 | `Math.max(...durations)`: an upper bound that some loaded source attains |
| Mashup.MixAt | app/routes/tool.song-masher/route.tsx:663-693 | definition; its properties are `MixFrame`, `BlendEndpoints`, `FadeStartsWithoutTrack1`, `UnitTempoReadsInPlace`, `HalfBlendWithSilence` |
| Mashup.MixFrame | app/routes/tool.song-masher/route.tsx:666-693 | the loop body gives the blend `MixAt` of the two tracks at frame i |
| Mashup.MashupOf | app/routes/tool.song-masher/route.tsx:635-698 | definition; its properties are `CreateMashup`, `MashupShape`, `MashupLengthIsLongest` |
| Mashup.CreateMashup | app/routes/tool.song-masher/route.tsx:635-698 | it throws "analyzer not initialized" without an analyser and "need 2 loaded tracks" below two buffered sources, checked before allocation; otherwise the result is `MashupOf` of the buffered sources |
| Mashup.MashupShape | app/routes/tool.song-masher/route.tsx:644-694 | the output is a two-channel buffer at the first source's rate; its length is the longest duration times that rate, rounded down; right equals left; every frame is the blend |
| Mashup.LongestInFrames | app/routes/tool.song-masher/route.tsx:644 | at one shared rate the longest source in seconds is the longest in frames |
| Mashup.RequestedIsLongest | app/routes/tool.song-masher/route.tsx:644-646 | at one shared rate the requested length is the longest source's frame count |
| Mashup.MashupLengthIsLongest | app/routes/tool.song-masher/route.tsx:644-646 | at one shared rate the mashup is exactly as long as the longest loaded source, even one beyond the first two |
| Mashup.BlendEndpoints | app/routes/tool.song-masher/route.tsx:680-693 | past the fade window a 100% ratio plays track 1 alone and a 0% ratio plays track 2 alone |
| Mashup.FadeStartsWithoutTrack1 | app/routes/tool.song-masher/route.tsx:687-690 | frame 0 of a fade window carries no track 1 and track 2 at its full weight |
| Mashup.UnitTempoReadsInPlace | app/routes/tool.song-masher/route.tsx:663-667 | at tempo 100 frame i reads source frame i |
| Mashup.HalfBlendWithSilence | app/routes/tool.song-masher/route.tsx:666-693 | an even blend with silence at unit tempo halves track 1, and is silent past its end |
| Playlist.LengthsOf | app/routes/tool.song-masher/route.tsx:750 | the channel-0 frame counts the offsets advance by |
| Playlist.StartMonotone | app/routes/tool.song-masher/route.tsx:750-758 | when no transition is longer than the track before it plus the gap, write offsets never decrease |
| Playlist.StartNonneg | app/routes/tool.song-masher/route.tsx:728-758 | every write offset is at least 0 |
| Playlist.FadeRatio | app/routes/tool.song-masher/route.tsx:743 | `j / transitionSamples` inside the transition lies in [0, 1) |
| Playlist.Silence | app/routes/tool.song-masher/route.tsx:724 | a fresh buffer is zero-filled |
| Playlist.Lefts | app/routes/tool.song-masher/route.tsx:732 | the channel 0 of each source, in order |
| Playlist.Rights | app/routes/tool.song-masher/route.tsx:733 | the channel 1 of each source (channel 0 for mono), in order |
| Playlist.WriteFrame | app/routes/tool.song-masher/route.tsx:737-747 | the copy-loop body changes only position off + j, to the source sample or the crossfade of the old value with it |
| Playlist.TotalDuration | app/routes/tool.song-masher/route.tsx:712-721 | the `forEach` sum: every duration, plus gap less transition (crossfade) between tracks |
| Playlist.CopyTrack | app/routes/tool.song-masher/route.tsx:736-748 | both channels become the track overlaid at its offset, clipped at the output's end, everything else untouched |
| Playlist.Layout | app/routes/tool.song-masher/route.tsx:728-759 | definition; each result has the output's length, and its properties are `LayoutUntouched`, `LayoutKeepsBefore`, `LayoutAtTrack`, `LayoutVerbatim`, `CutPlacesTracks` |
| Playlist.WriteTracks | app/routes/tool.song-masher/route.tsx:728-759 | the output channels are the layout of every track over silence at the offsets the recurrence gives |
| Playlist.PlaylistOf | app/routes/tool.song-masher/route.tsx:700-762 | definition; its properties are `CreatePlaylist`, `PlaylistShape`, `PlaylistChannels`, `PlaylistVerbatimFrame`, `PlaylistCrossfadeFrame`, `CutGapsAreSilent`, `PlaylistEndsAtLastOffset` |
| Playlist.CreatePlaylist | app/routes/tool.song-masher/route.tsx:700-762 | the two guards throw as in the mashup; otherwise the result is `PlaylistOf` of the buffered sources |
| Playlist.LayoutUntouched | app/routes/tool.song-masher/route.tsx:736 | a position that no track reaches keeps its initial value |
| Playlist.LayoutKeepsBefore | app/routes/tool.song-masher/route.tsx:728-758 | positions before a track's offset keep what the earlier tracks wrote |
| Playlist.LayoutAtTrack | app/routes/tool.song-masher/route.tsx:736-747 | right after track k is copied, its frame j sits at offset + j, written from what was there before |
| Playlist.LayoutVerbatim | app/routes/tool.song-masher/route.tsx:737-740 | a verbatim frame that no later track reaches stays the source sample in the final output |
| Playlist.CutPlacesTracks | app/routes/tool.song-masher/route.tsx:737-758 | in cut mode each track's frames land verbatim at its offset |
| Playlist.CutGapsKeepOutput | app/routes/tool.song-masher/route.tsx:753-754 | in cut mode the gap between tracks is never written |
| Playlist.FadeKeepsPrevious | app/routes/tool.song-masher/route.tsx:743-745 | at j = 0 the crossfade keeps the previous track's sample |
| Playlist.FadeBetween | app/routes/tool.song-masher/route.tsx:743-746 | a crossfaded sample lies between the previous sample and the new one |
| Playlist.PlaylistShape | app/routes/tool.song-masher/route.tsx:723-724 | a playlist is a valid two-channel buffer at the first source's rate, its length `totalDuration * sampleRate` rounded down |
| Playlist.MonoIsDuplicated | app/routes/tool.song-masher/route.tsx:733-746 | with mono sources the right channel equals the left |
| Playlist.PlaylistChannels | app/routes/tool.song-masher/route.tsx:725-759 | the two channels are the layouts of the left and right channel lists over silence |
| Playlist.PlaylistVerbatimFrame | app/routes/tool.song-masher/route.tsx:737-740 | for the first track, in cut mode, or past the transition, output[off_k + j] is the source sample in both channels unless the next track reaches that far |
| Playlist.PlaylistCrossfadeFrame | app/routes/tool.song-masher/route.tsx:741-746 | inside a crossfade output[off_k + j] is prev*(1 - j/T) + cur*(j/T) in each channel, where prev is what the earlier tracks left in that channel and cur is the source's left or right (mono: left) sample |
| Playlist.CutGapsAreSilent | app/routes/tool.song-masher/route.tsx:753-754 | in cut mode the frames between one track's end and the next offset are 0 |
| Playlist.SecondsAreOffsets | app/routes/tool.song-masher/route.tsx:712-758 | at one rate with whole-frame gap and transition, the running total in seconds converts to the write offset |
| Playlist.PlaylistEndsAtLastOffset | app/routes/tool.song-masher/route.tsx:712-758 | under the same conditions the output ends exactly at the final write offset, and in cut mode every track fits whole |
| Wav.LE16RoundTrip | app/routes/tool.song-masher/route.tsx:890-895 | a little-endian 16-bit field reads back its value mod 2^16 |
| Wav.LE32RoundTrip | app/routes/tool.song-masher/route.tsx:886-897 | a little-endian 32-bit field reads back its value mod 2^32 |
| Wav.LE32Exact | app/routes/tool.song-masher/route.tsx:886-897 | a 32-bit field below 2^32 reads back exactly |
| Wav.LE16Exact | app/routes/tool.song-masher/route.tsx:890-895 | a 16-bit field below 2^16 reads back exactly |
| Wav.SignedRoundTrip | app/routes/tool.song-masher/route.tsx:904 | an int16 in range reads back as a signed field |
| Wav.TagsAreAscii | app/routes/tool.song-masher/route.tsx:879-896 | `charCodeAt` writes the four ASCII bytes of "RIFF", "WAVE", "fmt " and "data" |
| Wav.Header | app/routes/tool.song-masher/route.tsx:885-897 | the header is 44 bytes |
| Wav.RiffRoundTrip | app/routes/tool.song-masher/route.tsx:885-887 | bytes 0..12 parse as "RIFF", size 36 + data bytes, "WAVE" |
| Wav.FmtRoundTrip | app/routes/tool.song-masher/route.tsx:888-895 | bytes 12..36 parse as a PCM `fmt ` chunk of size 16 with the channels, rate, byte rate rate*c*2, block align c*2 and 16 bits |
| Wav.DataRoundTrip | app/routes/tool.song-masher/route.tsx:896-897 | bytes 36..44 parse as "data" with size n*c*2 |
| Wav.HeaderRoundTrip | app/routes/tool.song-masher/route.tsx:875-897 | the 44-byte header parses back to channels, rate and data size |
| Wav.Clamp | app/routes/tool.song-masher/route.tsx:903 | `Math.max(-1, Math.min(1, s))`: in [-1, 1], identity inside, the bound outside |
| Wav.Trunc | app/routes/tool.song-masher/route.tsx:904 | `setInt16`'s conversion of a real: truncation toward zero |
| Wav.Quantize | app/routes/tool.song-masher/route.tsx:903-904 | every stored sample lies in [-32767, 32767] |
| Wav.QuantizeSymmetric | app/routes/tool.song-masher/route.tsx:903-904 | quantising is odd, 0 stays 0, and full scale saturates at ±32767 |
| Wav.QuantizeMonotone | app/routes/tool.song-masher/route.tsx:903-904 | quantising preserves order |
| Wav.SlotSampleAt | app/routes/tool.song-masher/route.tsx:900-907 | interleaved slot i*c + ch holds frame i of channel ch |
| Wav.WavBytes | app/routes/tool.song-masher/route.tsx:869-910 | definition; its properties are `WavLayout`, `WavSampleAt`, `HeaderRoundTrip` |
| Wav.WavLayout | app/routes/tool.song-masher/route.tsx:872-897 | the file is 44 + n*c*2 bytes and starts with the header |
| Wav.WavSampleAt | app/routes/tool.song-masher/route.tsx:899-907 | frame i, channel ch is the little-endian int16 of its quantised sample at byte 44 + 2*(i*c + ch) |
| Wav.Put | app/routes/tool.song-masher/route.tsx:879-904 | a write at an offset replaces exactly those bytes |
| Wav.PutPut | app/routes/tool.song-masher/route.tsx:885-897 | consecutive writes are one write of the concatenation |
| Wav.WriteString | app/routes/tool.song-masher/route.tsx:879-883 | the bytes of the tag written at the offset, nothing else |
| Wav.SetUint16 | app/routes/tool.song-masher/route.tsx:890-895 | `setUint16(o, v, true)` writes LE16(v mod 2^16) at o, nothing else |
| Wav.SetUint32 | app/routes/tool.song-masher/route.tsx:886-897 | `setUint32(o, v, true)` writes LE32(v mod 2^32) at o, nothing else |
| Wav.SetInt16 | app/routes/tool.song-masher/route.tsx:904 | `setInt16(o, x, true)` writes the two's complement of trunc(x) at o, nothing else |
| Wav.WriteRiffHeader | app/routes/tool.song-masher/route.tsx:885-887 | bytes 0..12 become the RIFF header |
| Wav.WriteFmtChunk | app/routes/tool.song-masher/route.tsx:888-895 | bytes 12..36 become the format chunk |
| Wav.WriteDataHeader | app/routes/tool.song-masher/route.tsx:896-897 | bytes 36..44 become the data chunk header |
| Wav.WriteHeader | app/routes/tool.song-masher/route.tsx:885-897 | bytes 0..44 become the whole header |
| Wav.WriteSample | app/routes/tool.song-masher/route.tsx:903-905 | one sample write extends the correctly written data prefix by two bytes and leaves the header alone |
| Wav.WriteFrame | app/routes/tool.song-masher/route.tsx:901-906 | the inner loop writes frame i's channels and advances the offset by 2c |
| Wav.ExportAudioBuffer | app/routes/tool.song-masher/route.tsx:869-910 | the filled `DataView` is exactly the WAV encoding of the buffer |
| Wav.ExportedIsWav | app/routes/tool.song-masher/route.tsx:899-910 | a byte sequence of the file's size that holds the header and then every data byte in place is the WAV encoding |
| SongMasher.ModeName | app/routes/tool.song-masher/route.tsx:805 | the mode's name is "mash" exactly in mash mode |
| SongMasher.ProgressTick | app/routes/tool.song-masher/route.tsx:790 | one firing never goes past 90 and never lowers progress at or below 90 |
| SongMasher.TicksStayBelowNinety | app/routes/tool.song-masher/route.tsx:789-791 | however often the interval fires, progress stays at or below 90 and never decreases from there |
| SongMasher.Composed | app/routes/tool.song-masher/route.tsx:795-799 | definition; its properties are `ComposedOutcome` and `Compose` |
| SongMasher.ComposedOutcome | app/routes/tool.song-masher/route.tsx:795-799 | past `processAudio`'s guards "need 2 loaded tracks" cannot happen, and a success is a valid stereo buffer at the first source's rate |
| SongMasher.Compose | app/routes/tool.song-masher/route.tsx:795-799 | the compositor the mode selects yields `Composed` |
| SongMasher.Masher.constructor | app/routes/tool.song-masher/route.tsx:479-499 | the page starts in mash mode with no sources or result and the default slider settings |
| SongMasher.Masher.Finish | app/routes/tool.song-masher/route.tsx:801-820 | on success the interval is cleared, progress is 100 and the result and track name are set; on failure progress goes back to 0, the old result is kept and the interval stays running |
| SongMasher.Masher.ProcessAudio | app/routes/tool.song-masher/route.tsx:764-821 | fewer than two sources, or fewer than two loaded ones, only raise a toast; otherwise the run ends not processing, with the success or failure state of `Finish`, and a failed run leaks one interval |
| SongMasher.Masher.Tick | app/routes/tool.song-masher/route.tsx:789-791 | a firing changes only the progress, by `ProgressTick` |
| SongMasher.Masher.DownloadResult | app/routes/tool.song-masher/route.tsx:860-931 | nothing, and no toast, without a result or an analyser; otherwise the "Download started" toast, then either the WAV bytes of the result under the name "<mode>-result-<now>.wav" with "Download complete", or no download with "Download failed"; every other field is unchanged |
| Toasts.Merge | app/hooks/use-toast.ts:37 | `{ ...t, ...u }`: the id is kept; the title, description, action and duration are u's where u carries them and t's elsewhere |
| Toasts.Reducer | app/hooks/use-toast.ts:25-58 | definition; its properties are `AddGoesFirst`, `ReducerBounded`, `UpdateOnlyMatching`, `DismissRemovesId`, `RemoveIsDismissOrClear` |
| Toasts.AddGoesFirst | app/hooks/use-toast.ts:27-31 | the new toast is first and the old ones follow in order, cut at three |
| Toasts.ReducerBounded | app/hooks/use-toast.ts:25-58 | no action takes a list of at most three longer than three, and only an addition makes a list longer |
| Toasts.UpdateOnlyMatching | app/hooks/use-toast.ts:33-39 | an update merges into exactly the toasts with its id; length, order and the others are kept |
| Toasts.Without | app/hooks/use-toast.ts:44-56 | definition; the result is no longer than the input, and its properties are `WithoutMembers`, `WithoutConcat`, `WithoutNone`, `WithoutIdempotent` |
| Toasts.WithoutMembers | app/hooks/use-toast.ts:44-56 | the filter keeps exactly the toasts whose id differs |
| Toasts.WithoutConcat | app/hooks/use-toast.ts:44-56 | the filter keeps order |
| Toasts.WithoutNone | app/hooks/use-toast.ts:102 | filtering by an absent id keeps every toast, since stored ids are strings |
| Toasts.WithoutIdempotent | app/hooks/use-toast.ts:44-56 | filtering twice by the same id is filtering once |
| Toasts.DismissRemovesId | app/hooks/use-toast.ts:41-45 | a dismissal removes every toast with the id, keeps the rest, and changes nothing without an id |
| Toasts.RemoveIsDismissOrClear | app/hooks/use-toast.ts:47-57 | a removal without an id empties the list; with one it is the dismissal |
| Toasts.FirstIndex | app/hooks/use-toast.ts:92 | `indexOf`: the first position of the listener, None exactly when it is absent |
| Toasts.RemoveFirst | app/hooks/use-toast.ts:92-95 | definition; its properties are `RemoveFirstSpec` |
| Toasts.RemoveFirstSpec | app/hooks/use-toast.ts:92-95 | only the first occurrence is removed and the others keep their order; an absent listener changes nothing |
| Toasts.Calls | app/hooks/use-toast.ts:20-22 | one call per listener, in order, each with the new state |
| Toasts.ToastStore.constructor | app/hooks/use-toast.ts:15-16 | no toasts and no listeners |
| Toasts.ToastStore.Dispatch | app/hooks/use-toast.ts:18-23 | the state becomes the reducer's result, then every listener is called once with it in registration order |
| Toasts.ToastStore.Toast | app/hooks/use-toast.ts:61-84 | the id is `Date.now().toString()`; the toast is added with duration defaulting to 5000 only when absent; a removal is scheduled only for a positive duration |
| Toasts.ToastStore.FireRemoval | app/hooks/use-toast.ts:75-80 | a scheduled removal dispatches REMOVE_TOAST for its id and is no longer pending |
| Toasts.ToastStore.Dismiss | app/hooks/use-toast.ts:102 | `dismiss(id)` dispatches DISMISS_TOAST |
| Toasts.ToastStore.Subscribe | app/hooks/use-toast.ts:90 | the listener is appended, nothing else changes |
| Toasts.ToastStore.Unsubscribe | app/hooks/use-toast.ts:91-96 | the first occurrence of the listener is removed, nothing else changes |
| RecipeChat.FindBlock | app/routes/chat.recipe-assistant/route.tsx:120 | the match of the lazy fenced-block pattern is the leftmost opening fence that has a closing fence after it, with the earliest such closing fence; None when the pattern cannot match |
| RecipeChat.FirstBlockUnique | app/routes/chat.recipe-assistant/route.tsx:120 | only one match satisfies both conditions |
| RecipeChat.BlockHasFence | app/routes/chat.recipe-assistant/route.tsx:119-120 | a match implies the ```` ```json ```` test passes, so the `includes` guard never hides one |
| RecipeChat.BlockSplits | app/routes/chat.recipe-assistant/route.tsx:120 | the content is the text before the block, the fence, the body, the closing fence and the rest |
| RecipeChat.Cut | app/routes/chat.recipe-assistant/route.tsx:124 | `replace` of the first block by "": the text before it followed by the text after it |
| RecipeChat.ReplyAt | app/routes/chat.recipe-assistant/route.tsx:121-128 | the recipe is the parse of the body; a failed parse leaves the content as it was |
| RecipeChat.ParseReply | app/routes/chat.recipe-assistant/route.tsx:119-128 | without ```` ```json ```` there is no extraction; without a recipe the content is shown as it is |
| RecipeChat.ParseReplyAtBlock | app/routes/chat.recipe-assistant/route.tsx:120-128 | with a match, a body that parses gives the recipe and the content with only that block cut out, then trimmed; one that does not parse gives the content unchanged |
| RecipeChat.ParseReplyNoBlock | app/routes/chat.recipe-assistant/route.tsx:120-121 | without a match the content is shown as it is, with no recipe |
| RecipeChat.ShownSender | app/routes/chat.recipe-assistant/route.tsx:134 | 'critic' is shown as 'assistant' and every other sender as stored |
| RecipeChat.SenderRoundTrip | app/routes/chat.recipe-assistant/route.tsx:134 | storing a sender and loading it gives the sender back |
| RecipeChat.LiveReply | app/routes/chat.recipe-assistant/route.tsx:201-223 | definition; its properties are `ParseReply`, `ParseReplyAtBlock`, `ParseReplyNoBlock` and `ReplyRoundTrip` |
| RecipeChat.LoadMessage | app/routes/chat.recipe-assistant/route.tsx:114-139 | definition; its properties are `ReplyRoundTrip`, `UserMessageRoundTrip` and `SenderRoundTrip` |
| RecipeChat.ReplyRoundTrip | app/routes/chat.recipe-assistant/route.tsx:114-139 | a reply saved in full and reloaded shows the same text and recipe as it did live |
| RecipeChat.UserMessageRoundTrip | app/routes/chat.recipe-assistant/route.tsx:114-184 | a user message comes back as sent exactly when no recipe is read from it |
| RecipeChat.SessionSummary | app/routes/chat.recipe-assistant/route.tsx:256-258 | "Recipe: " + title when a recipe object was read, else the first 100 characters of the shown text |
| RecipeChat.SendStart | app/routes/chat.recipe-assistant/route.tsx:170-182 | blank input without an image does nothing; without a session a session is started; otherwise the input is sent, with an empty one replaced by "Here are my ingredients" |
| RecipeChat.BlankWithImage | app/routes/chat.recipe-assistant/route.tsx:170-181 | white space with an image is sent as typed, because only the empty string gets the default |
| RecipeChat.ReplaceNonAlnum | app/routes/chat.recipe-assistant/route.tsx:327 | `replace(/[^a-z0-9]/gi, '_')`: as long as the title in UTF-16 code units, and made only of ASCII letters, digits and '_' |
| RecipeChat.ReplacePlaces | app/routes/chat.recipe-assistant/route.tsx:327 | each title character's replacement stands at its code-unit offset: the character itself if it is an ASCII letter or digit, else one '_' per code unit |
| RecipeChat.LowerChar | app/routes/chat.recipe-assistant/route.tsx:327 | `toLowerCase` on what the replace leaves: A-Z to a-z, the rest unchanged |
| RecipeChat.LowerAscii | app/routes/chat.recipe-assistant/route.tsx:327 | character-wise lower-casing, same length |
| RecipeChat.RecipeFileName | app/routes/chat.recipe-assistant/route.tsx:327 | the name is as long as the title in UTF-16 code units plus 4, ends in ".txt", and before that holds only a-z, 0-9 and '_' |
| RecipeChat.FileNamePlaces | app/routes/chat.recipe-assistant/route.tsx:327 | each title character stands at its code-unit offset in the name, lower-cased if it is a letter or digit, else as one '_' per code unit |
| RecipeChat.EmojiTitleFileName | app/routes/chat.recipe-assistant/route.tsx:327 | the title "🍝 Pasta" gives "___pasta.txt": the emoji's two code units become two '_' |
| RecipeChat.FileNameIgnoresCase | app/routes/chat.recipe-assistant/route.tsx:327 | titles that differ only in ASCII case give the same file name |
| RecipeChat.Bullets | app/routes/chat.recipe-assistant/route.tsx:300 | each ingredient in order as "• " + ingredient |
| RecipeChat.Numbered | app/routes/chat.recipe-assistant/route.tsx:300 | instruction k is "k+1. " + instruction, in order |
| RecipeChat.ListLines | app/routes/chat.recipe-assistant/route.tsx:300 | the lines of a joined list, at least one even for an empty list, whose join is the list's join |
| RecipeChat.RecipeText | app/routes/chat.recipe-assistant/route.tsx:300 | definition; its properties are `RecipeTextIsLines` and `RecipeTextSplits` |
| RecipeChat.HeadTextIsLines | app/routes/chat.recipe-assistant/route.tsx:300 | the text up to "Ingredients:" is the join of its lines |
| RecipeChat.RecipeTextIsLines | app/routes/chat.recipe-assistant/route.tsx:300 | the recipe text is the join of its lines: title, servings, times, the ingredient bullets, the numbered steps, and a "Tips:" line only when tips are non-empty |
| RecipeChat.RecipeTextSplits | app/routes/chat.recipe-assistant/route.tsx:300 | when no field contains a line break, splitting the text at "\n" gives exactly those lines back |
| ResumeBuilder.OrPlaceholder | app/routes/generator.resume-builder/ai-prompts.ts:155-158 | `value || placeholder`: a filled field as typed, an empty one replaced |
| ResumeBuilder.BuildPrompt | app/routes/generator.resume-builder/ai-prompts.ts:153-222 | definition; its properties are `PromptFields` and `OrPlaceholder` |
| ResumeBuilder.PromptFields | app/routes/generator.resume-builder/ai-prompts.ts:153-222 | each input line of the prompt holds the field or its fixed placeholder, and the "coverLetter" part is present exactly when a cover letter is requested |
| ResumeBuilder.RequestOptions | app/routes/generator.resume-builder/ai-prompts.ts:224-227 | temperature 0.7; 4000 tokens with a cover letter, 3000 without |
| ResumeBuilder.FirstOf | app/routes/generator.resume-builder/ai-prompts.ts:231 | the first position of a character, None exactly when absent |
| ResumeBuilder.LastOf | app/routes/generator.resume-builder/ai-prompts.ts:231 | the last position of a character, None exactly when absent |
| ResumeBuilder.SpanBounds | app/routes/generator.resume-builder/ai-prompts.ts:231 | `/\{[\s\S]*\}/` matches from the first '{' to the last '}' after it, the leftmost-longest match; None exactly when no '{' has a '}' after it |
| ResumeBuilder.JsonSpan | app/routes/generator.resume-builder/ai-prompts.ts:231 | the matched text starts with '{' and ends with '}' |
| ResumeBuilder.SpanUnique | app/routes/generator.resume-builder/ai-prompts.ts:231 | any leftmost-longest span is the one found, and the match is that slice |
| ResumeBuilder.Fallback | app/routes/generator.resume-builder/ai-prompts.ts:246-253 | the fallback resume, with the fallback cover letter exactly when one is requested |
| ResumeBuilder.GenerateResume | app/routes/generator.resume-builder/ai-prompts.ts:153-253 | definition; its properties are `FailureGivesFallback`, `NoSpanGivesFallback`, `ParsedChoice`, `CoverLetterPresence` |
| ResumeBuilder.FailureGivesFallback | app/routes/generator.resume-builder/ai-prompts.ts:231-253 | a failed AI call, an answer with no span, or a span that does not parse all give the fallback, so the call never rejects |
| ResumeBuilder.NoSpanGivesFallback | app/routes/generator.resume-builder/ai-prompts.ts:232-234 | no '{' before a later '}' gives the fallback |
| ResumeBuilder.ParsedChoice | app/routes/generator.resume-builder/ai-prompts.ts:236-241 | after a parse, the resume is the parsed one when present, else the fallback; the cover letter is the parsed one when truthy, even unrequested, else the fallback exactly when requested |
| ResumeBuilder.CoverLetterPresence | app/routes/generator.resume-builder/ai-prompts.ts:238-253 | in every outcome a requested cover letter is present and non-empty, and an unrequested one appears only when the model supplied it |
| Visualizer.AddLayer | app/routes/tool.music-visualizer/route.tsx:206-215 | exactly one layer is appended (id `Date.now()`, frequency, enabled, opacity 100, screen), and the others are unchanged |
| Visualizer.RemoveLayer | app/routes/tool.music-visualizer/route.tsx:217-219 | definition; the result is no longer than the input, and its properties are `RemoveLayerMembers`, `RemoveLayerConcat`, `RemoveLayerLength`, `UiRemovalKeepsOne` |
| Visualizer.RemoveLayerMembers | app/routes/tool.music-visualizer/route.tsx:217-219 | a layer is kept exactly when it was there and its id differs |
| Visualizer.RemoveLayerConcat | app/routes/tool.music-visualizer/route.tsx:217-219 | the filter keeps order |
| Visualizer.RemoveLayerLength | app/routes/tool.music-visualizer/route.tsx:217-219 | removal drops exactly the layers that carry the id |
| Visualizer.UniqueCountsOne | app/routes/tool.music-visualizer/route.tsx:217-219 | with distinct ids each id is carried by exactly one layer |
| Visualizer.UiRemovalKeepsOne | app/routes/tool.music-visualizer/route.tsx:1399-1408 | pressing a remove button, which is shown only with two or more layers, removes one layer and never empties a list with distinct ids |
| Visualizer.UpdateLayer | app/routes/tool.music-visualizer/route.tsx:221-225 | same length and order; the layers with the id get the merge, the others are unchanged |
| Visualizer.MergeLayer | app/routes/tool.music-visualizer/route.tsx:223 | definition; its properties are `MergeKeepsAbsent` and `UpdateLayer` |
| Visualizer.MergeKeepsAbsent | app/routes/tool.music-visualizer/route.tsx:223 | properties the update does not name keep their values, and an empty update changes nothing |
| Visualizer.BinIndex | app/routes/tool.music-visualizer/route.tsx:269 | `Math.floor(p * len)` with p in [0, 1) lies in [0, len) |
| Visualizer.BinIndexMonotone | app/routes/tool.music-visualizer/route.tsx:269 | later fractions read no earlier bin |
| Visualizer.ItemBinInBounds | app/routes/tool.music-visualizer/route.tsx:268-269 | bar i of `drawFrequency`, bar i of `drawCircular` and particle i of `drawParticles` read inside the spectrum |
| Visualizer.DnaBin | app/routes/tool.music-visualizer/route.tsx:592 | the bin of a `drawDNA` row lies in [0, len) |
| Visualizer.DnaRowsInBounds | app/routes/tool.music-visualizer/route.tsx:591-592 | every row of `drawDNA`, from -height/2 in steps of 5 below height/2, reads inside the spectrum |
| Visualizer.SpiralIndexInBounds | app/routes/tool.music-visualizer/route.tsx:550-552 | `drawSpiral` reads index 4i only below the spectrum's length |
| Visualizer.NewParticle | app/routes/tool.music-visualizer/route.tsx:334-340 | a new particle starts on the canvas with life 1 |
| Visualizer.Wrap | app/routes/tool.music-visualizer/route.tsx:364-367 | the edge wrap: on the canvas inside, the far edge below 0, 0 beyond the far edge |
| Visualizer.Move | app/routes/tool.music-visualizer/route.tsx:348-369 | every moved particle is on the canvas, and life is unchanged |
| Visualizer.Grown | app/routes/tool.music-visualizer/route.tsx:331-341 | the pushes keep the old particles and fill up to `count` |
| Visualizer.Advanced | app/routes/tool.music-visualizer/route.tsx:331-369 | after a frame there are exactly `count` particles, all on the canvas |
| Visualizer.AdvancedKeepsOld | app/routes/tool.music-visualizer/route.tsx:346-369 | the particles that were there keep their place and are moved, not replaced |
| Visualizer.ParticleField.Frame | app/routes/tool.music-visualizer/route.tsx:331-369 | the buffer becomes `Advanced` of the old one: exactly `count` particles, all on the canvas |
| Visualizer.ParticleField.DrawBins | app/routes/tool.music-visualizer/route.tsx:372-374 | each drawn particle reads its bin, which lies inside the spectrum |

Members without a row are proof helpers: arithmetic facts, prefix and slot bookkeeping, one-step lemmas of an induction, and bridges that restate a callee's preconditions (for example `BpmDetector.RateBound`, `Wav.DivModUnique`, `Wav.PutSlot`, `RecipeChat.ReplaceAppend`, `Playlist.FadeSite`). They model nothing of their own.

Two behaviours of the code worth noting:
- `detectBPM` tests `samples[i] > threshold` on the signed sample, not its absolute value, so negative peaks never count.
- The `includes` test in front of the fenced-block match is redundant: `RecipeChat.BlockHasFence` proves that every match passes it.

## Left out

- Browser audio plumbing is not modelled: `AudioContext`, decoding, playback, frequency data and the visualizer's media-element graph are platform APIs. A decoded buffer is a given `AudioBuffer` value with a positive rate, at least one frame and channels of equal length.
- Energy and loudness in `analyzeAudio`, together with circular-slider angles, canvas drawing, trigonometry, `drawFace`, `drawCube3D` and the geometry of the spiral and DNA views, are floating-point drawing with no exact counterpart. Only the array indices those routines read are modelled.
- Floating-point rounding is not modelled. Samples and durations are exact reals, so `totalDuration * sampleRate` and `Math.floor` act on the exact values.
- Downloads are not modelled: the Blob, object URL and link click are DOM I/O. `DownloadResult` returns the bytes and the file name, and whether one of those steps throws is its parameter `delivered`.
- The YouTube source with a simulated random load has no buffer and never reaches a compositor, so it is not modelled.
- The progress `setInterval` is modelled as `Masher.Tick` firings with the random draw as a parameter, and the leaked interval as a counter. Timer scheduling and the 200 ms period are not modelled.
- Toast auto-removal via `setTimeout` is modelled as a pending list fired by `FireRemoval`. The delays are recorded but time is not modelled.
- `Date.now()` ids are parameters. Equal values make a dismissal remove several toasts, which `DismissRemovesId` states.
- The React hooks are not modelled: `useToast` state and the component re-render cycle. `Subscribe` and `Unsubscribe` model the effect and its cleanup.
- Recipe prompt wording, the art-critic route, the AI service, the HTTP proxy and PocketBase are not modelled. They are network or presentation glue.
- `JSON.parse` results are reduced to "falsy" or "an object read as a recipe". Servings are a natural. A truthy non-object parse (a number, a string) is not distinguished.
- Resume prompt text is modelled only as its four input lines and the cover-letter part. The rest of the fixed wording and the structure of `StructuredResume` are opaque values, and the fallback resume is one constant.
- Resume-builder page state, its PDF export and the other pages are presentation only and not modelled.
- `Playlist.CreatePlaylist` (and `Playlist.PlaylistOf`, `SongMasher.Masher.ProcessAudio`): requires that no transition is longer than the previous track plus the gap (`NoBacktrack`). The JavaScript silently drops writes at negative offsets, and that case is not modelled.
- `Playlist.SecondsAreOffsets` and `Playlist.PlaylistEndsAtLastOffset`: hold only when all sources share one rate and the gap and transition are whole numbers of frames. Otherwise the seconds total and the frame offsets can differ by rounding.
- `Mashup.MashupLengthIsLongest`: assumes one shared sample rate, because at mixed rates the output is sized at the first source's rate.
- `Wav.SetUint16` and `Wav.SetUint32`: a field value reduces mod 2^16 or 2^32, as `DataView` does. A file whose data exceeds 4 GiB is not otherwise modelled.
- `Visualizer.ParticleField.Frame`: requires a non-empty spectrum, which an analyser always provides. On an empty one the average would be NaN.
- `Visualizer.ParticleField.Frame`: the particles are updated as values rather than mutated objects. The source's `map` returns the same objects it mutates, so nothing outside the buffer sees the difference, but aliasing is not modelled.
- `Visualizer.ParticleField.Frame`: the random draws come as two given sequences, one for spawning and one for kicks, rather than one interleaved stream.
- `JsStrings.Prefix`: a Dafny `string` is a sequence of Unicode scalar values, while `substring(0, 100)` counts UTF-16 code units. A character outside the Basic Multilingual Plane counts once here and twice in JavaScript, and a prefix that splits its surrogate pair cannot be represented.
- `RecipeChat.SessionSummary`: the first 100 characters of the shown text are taken with `Prefix`, so a text with characters outside the Basic Multilingual Plane is cut later here than in JavaScript.
- `Toasts.Merge`: `None` stands only for a property that is absent from the update. The spread also copies a property that is present with the value `undefined`, and that case is not modelled.
- `JsStrings.IndexOf`: an empty pattern searched from beyond the end gives None, where JavaScript clamps the start and answers the length. Every pattern the program passes is non-empty.
