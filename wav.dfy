/**
 * The song masher's WAV export: the canonical 44-byte RIFF/WAVE header with a
 * PCM `fmt ` chunk (Microsoft/IBM Multimedia Programming Interface and Data
 * Specifications 1.0, the WAVE form), followed by the frames, each frame the
 * channels' samples in order as little-endian 16-bit two's complement.
 */
module Wav {
  import opened Wrappers
  import opened AudioBuffers

  type Byte = x: int | 0 <= x < 256

  const TWO16: int := 0x1_0000
  const TWO32: int := 0x1_0000_0000

  // ---------------------------------------------------------------------------
  // Field encodings, as `DataView` stores them
  // ---------------------------------------------------------------------------

  /** `setUint16(_, v, true)` and the byte part of `setInt16`: v modulo 2^16, low byte first. */
  function LE16(v: int): (r: seq<Byte>)
    ensures |r| == 2
  {
    var u := v % TWO16;
    [u % 256, u / 256]
  }

  /** `setUint32(_, v, true)`: v modulo 2^32, least significant byte first. */
  function LE32(v: int): (r: seq<Byte>)
    ensures |r| == 4
  {
    var u := v % TWO32;
    [u % 256, (u / 0x100) % 256, (u / 0x1_0000) % 256, u / 0x100_0000]
  }

  /** `setUint8(offset + i, s.charCodeAt(i))` for each i: the code unit modulo 256. */
  function Tag(s: string): (r: seq<Byte>)
    ensures |r| == |s|
    ensures (forall i :: 0 <= i < |s| ==> s[i] as int < 256) ==> forall i :: 0 <= i < |s| ==> r[i] == s[i] as int
  {
    seq(|s|, i requires 0 <= i < |s| => (s[i] as int) % 256)
  }

  /** The unsigned value of the little-endian 16-bit field at `off`. */
  function U16At(b: seq<Byte>, off: nat): (v: nat)
    requires off + 2 <= |b|
    ensures v < TWO16
  {
    b[off] as int + 0x100 * b[off + 1] as int
  }

  /** The unsigned value of the little-endian 32-bit field at `off`. */
  function U32At(b: seq<Byte>, off: nat): (v: nat)
    requires off + 4 <= |b|
    ensures v < TWO32
  {
    b[off] as int + 0x100 * b[off + 1] as int + 0x1_0000 * b[off + 2] as int + 0x100_0000 * b[off + 3] as int
  }

  /** The signed value of the little-endian 16-bit two's-complement field at `off`. */
  function I16At(b: seq<Byte>, off: nat): (v: int)
    requires off + 2 <= |b|
    ensures -0x8000 <= v < 0x8000
  {
    var u := U16At(b, off);
    if u >= 0x8000 then u - TWO16 else u
  }

  /** The four bytes at `off` are the tag `s`. */
  predicate TagAt(b: seq<Byte>, off: nat, s: string)
    requires off + |s| <= |b|
  {
    forall j :: 0 <= j < |s| ==> b[off + j] == Tag(s)[j]
  }

  /** A 16-bit field reads back as the value stored, reduced modulo 2^16. */
  lemma LE16RoundTrip(v: int)
    ensures U16At(LE16(v), 0) == v % TWO16
  {
  }

  /** A 32-bit field reads back as the value stored, reduced modulo 2^32. */
  lemma LE32RoundTrip(v: int)
    ensures U32At(LE32(v), 0) == v % TWO32
  {
    var u := v % TWO32;
    var b := LE32(v);
    assert u == b[0] + 0x100 * (u / 0x100);
    assert u / 0x100 == b[1] + 0x100 * (u / 0x1_0000);
    assert u / 0x1_0000 == b[2] + 0x100 * (u / 0x100_0000);
  }

  lemma ModSmall(x: int)
    requires 0 <= x < TWO32
    ensures x % TWO32 == x
  {
  }

  /** A value that fits in 32 bits reads back unchanged. */
  lemma LE32Exact(v: int)
    requires 0 <= v < TWO32
    ensures U32At(LE32(v), 0) == v
  {
    LE32RoundTrip(v);
  }

  /** A value that fits in 16 bits reads back unchanged. */
  lemma LE16Exact(v: int)
    requires 0 <= v < TWO16
    ensures U16At(LE16(v), 0) == v
  {
  }

  /** A 16-bit two's-complement sample reads back as itself. */
  lemma SignedRoundTrip(v: int)
    requires -0x8000 <= v < 0x8000
    ensures I16At(LE16(v), 0) == v
  {
    LE16RoundTrip(v);
  }

  // ---------------------------------------------------------------------------
  // The header
  // ---------------------------------------------------------------------------

  /** The RIFF chunk header: the tag, the size of everything after the size field, the form type. */
  function RiffHeader(dataSize: nat): (h: seq<Byte>)
    ensures |h| == 12
  {
    Tag("RIFF") + LE32(36 + dataSize) + Tag("WAVE")
  }

  /** The 16-byte PCM `fmt ` chunk: format 1, the channel count, the rates, 16 bits per sample. */
  function FmtChunk(channels: nat, sampleRate: nat): (h: seq<Byte>)
    ensures |h| == 24
  {
    Tag("fmt ") + LE32(16) + LE16(1) + LE16(channels) +
    LE32(sampleRate) + LE32(sampleRate * channels * 2) + LE16(channels * 2) + LE16(16)
  }

  /** The `data` chunk header: the tag and the size of the samples that follow. */
  function DataHeader(dataSize: nat): (h: seq<Byte>)
    ensures |h| == 8
  {
    Tag("data") + LE32(dataSize)
  }

  /** The 44 header bytes for `frames` frames of `channels` 16-bit channels at `sampleRate`. */
  function Header(frames: nat, channels: nat, sampleRate: nat): (h: seq<Byte>)
    ensures |h| == 44
  {
    var dataSize := frames * channels * 2;
    RiffHeader(dataSize) + FmtChunk(channels, sampleRate) + DataHeader(dataSize)
  }

  /** The format a reader takes from a PCM WAVE header. */
  datatype WavFormat = WavFormat(channels: nat, sampleRate: nat, dataBytes: nat)

  /** The RIFF size field of a RIFF chunk header of form type WAVE. */
  function ParseRiff(r: seq<Byte>): (size: Option<nat>)
    requires |r| == 12
  {
    if TagAt(r, 0, "RIFF") && TagAt(r, 8, "WAVE") then Some(U32At(r, 4)) else None
  }

  /**
   * Channel count and sample rate of a 16-byte PCM `fmt ` chunk of 16-bit
   * samples whose byte rate and block alignment agree with them.
   */
  function ParseFmt(f: seq<Byte>): (r: Option<(nat, nat)>)
    requires |f| == 24
  {
    if !TagAt(f, 0, "fmt ") || U32At(f, 4) != 16 || U16At(f, 8) != 1 || U16At(f, 22) != 16 then None
    else
      var channels := U16At(f, 10);
      var sampleRate := U32At(f, 12);
      if U32At(f, 16) == sampleRate * channels * 2 && U16At(f, 20) == channels * 2 then Some((channels, sampleRate))
      else None
  }

  /** The size field of a `data` chunk header. */
  function ParseData(d: seq<Byte>): (size: Option<nat>)
    requires |d| == 8
  {
    if TagAt(d, 0, "data") then Some(U32At(d, 4)) else None
  }

  /**
   * A reader of the canonical header: the RIFF header, the PCM `fmt ` chunk and
   * the `data` chunk header in place, and a RIFF size 36 bytes more than the
   * data size. None for anything else.
   */
  function ParseHeader(b: seq<Byte>): (r: Option<WavFormat>)
  {
    if |b| < 44 then None
    else
      match (ParseRiff(b[..12]), ParseFmt(b[12..36]), ParseData(b[36..44]))
      case (Some(riffSize), Some((channels, sampleRate)), Some(dataBytes)) =>
        if riffSize == 36 + dataBytes then Some(WavFormat(channels, sampleRate, dataBytes)) else None
      case _ => None
  }

  /** The chunk tags are the ASCII codes the WAVE form prescribes. */
  lemma TagsAreAscii()
    ensures Tag("RIFF") == [0x52, 0x49, 0x46, 0x46]
    ensures Tag("WAVE") == [0x57, 0x41, 0x56, 0x45]
    ensures Tag("fmt ") == [0x66, 0x6D, 0x74, 0x20]
    ensures Tag("data") == [0x64, 0x61, 0x74, 0x61]
  {
  }

  /** The RIFF header reads back its size field, reduced modulo 2^32. */
  lemma RiffRoundTrip(dataSize: nat)
    ensures ParseRiff(RiffHeader(dataSize)) == Some((36 + dataSize) % TWO32)
  {
    var r := RiffHeader(dataSize);
    assert TagAt(r, 0, "RIFF") && TagAt(r, 8, "WAVE");
    LE32RoundTrip(36 + dataSize);
    assert U32At(r, 4) == U32At(LE32(36 + dataSize), 0);
  }

  /** The `fmt ` chunk reads back its channel count and sample rate when its fields fit. */
  lemma FmtRoundTrip(channels: nat, sampleRate: nat)
    requires channels * 2 < TWO16 && sampleRate < TWO32 && sampleRate * channels * 2 < TWO32
    ensures ParseFmt(FmtChunk(channels, sampleRate)) == Some((channels, sampleRate))
  {
    var f := FmtChunk(channels, sampleRate);
    var byteRate := sampleRate * channels * 2;
    var blockAlign := channels * 2;
    LE32Exact(16);
    LE16Exact(1);
    LE16Exact(channels);
    LE32Exact(sampleRate);
    LE32Exact(byteRate);
    LE16Exact(blockAlign);
    LE16Exact(16);
    assert TagAt(f, 0, "fmt ");
    assert U32At(f, 4) == U32At(LE32(16), 0);
    assert U16At(f, 8) == U16At(LE16(1), 0);
    assert U16At(f, 10) == U16At(LE16(channels), 0);
    assert U32At(f, 12) == U32At(LE32(sampleRate), 0);
    assert U32At(f, 16) == U32At(LE32(byteRate), 0);
    assert U16At(f, 20) == U16At(LE16(blockAlign), 0);
    assert U16At(f, 22) == U16At(LE16(16), 0);
  }

  /** The `data` header reads back its size field, reduced modulo 2^32. */
  lemma DataRoundTrip(dataSize: nat)
    ensures ParseData(DataHeader(dataSize)) == Some(dataSize % TWO32)
  {
    var d := DataHeader(dataSize);
    assert TagAt(d, 0, "data");
    LE32RoundTrip(dataSize);
    assert U32At(d, 4) == U32At(LE32(dataSize), 0);
  }

  /**
   * Whenever every field fits its width, a reader recovers the channel count,
   * the sample rate and the data size from the header.
   */
  lemma HeaderRoundTrip(frames: nat, channels: nat, sampleRate: nat)
    requires channels * 2 < TWO16 && sampleRate < TWO32 && sampleRate * channels * 2 < TWO32 && 36 + frames * channels * 2 < TWO32
    ensures ParseHeader(Header(frames, channels, sampleRate)) == Some(WavFormat(channels, sampleRate, frames * channels * 2))
  {
    var dataSize := frames * channels * 2;
    var h := Header(frames, channels, sampleRate);
    assert h[..12] == RiffHeader(dataSize);
    assert h[12..36] == FmtChunk(channels, sampleRate);
    assert h[36..44] == DataHeader(dataSize);
    RiffRoundTrip(dataSize);
    FmtRoundTrip(channels, sampleRate);
    DataRoundTrip(dataSize);
    ModSmall(36 + dataSize);
    ModSmall(dataSize);
    assert ParseRiff(h[..12]) == Some(36 + dataSize);
    assert ParseData(h[36..44]) == Some(dataSize);
  }

  // ---------------------------------------------------------------------------
  // The samples
  // ---------------------------------------------------------------------------

  /** `Math.max(-1, Math.min(1, s))`. */
  function Clamp(s: real): (r: real)
    ensures -1.0 <= r <= 1.0
    ensures -1.0 <= s <= 1.0 ==> r == s
    ensures s > 1.0 ==> r == 1.0
    ensures s < -1.0 ==> r == -1.0
  {
    var upper := if s < 1.0 then s else 1.0;
    if upper > -1.0 then upper else -1.0
  }

  /** The truncation toward zero that `setInt16` applies to its value. */
  function Trunc(x: real): (n: int)
    ensures x >= 0.0 ==> 0.0 <= n as real <= x < n as real + 1.0
    ensures x <= 0.0 ==> n as real - 1.0 < x <= n as real <= 0.0
  {
    if x >= 0.0 then x.Floor else -((-x).Floor)
  }

  /** The 16-bit value a sample is stored as: the clamped sample scaled by 0x7FFF, truncated. */
  function Quantize(s: real): (q: int)
    ensures -0x7FFF <= q <= 0x7FFF
  {
    Trunc(Clamp(s) * 32767.0)
  }

  /** Quantisation is symmetric about silence, and full scale reaches exactly +-0x7FFF. */
  lemma QuantizeSymmetric(s: real)
    ensures Quantize(-s) == -Quantize(s)
    ensures Quantize(0.0) == 0
    ensures s >= 1.0 ==> Quantize(s) == 0x7FFF
    ensures s <= -1.0 ==> Quantize(s) == -0x7FFF
  {
    assert Clamp(-s) == -Clamp(s);
  }

  /** A louder sample never quantises lower. */
  lemma QuantizeMonotone(s: real, t: real)
    requires s <= t
    ensures Quantize(s) <= Quantize(t)
  {
    assert Clamp(s) * 32767.0 <= Clamp(t) * 32767.0;
  }

  /** Multiplying by a natural number keeps the order. */
  lemma {:induction false} MulMonotone(a: int, b: int, c: nat)
    requires a <= b
    ensures a * c <= b * c
    decreases c
  {
    if c > 0 {
      MulMonotone(a, b, c - 1);
      assert a * c == a * (c - 1) + a;
      assert b * c == b * (c - 1) + b;
    }
  }

  /** Euclidean division by c recovers quotient and remainder. */
  lemma DivModUnique(q: int, r: int, c: int)
    requires c > 0 && 0 <= r < c
    ensures (q * c + r) / c == q && (q * c + r) % c == r
  {
    var n := q * c + r;
    var q' := n / c;
    assert (q - q') * c == n % c - r;
    if q' < q {
      MulMonotone(1, q - q', c);
    } else if q' > q {
      MulMonotone(1, q' - q, c);
    }
  }

  /** Slot `i*c + ch` of an `n`-frame, `c`-channel buffer is in range and decomposes back into frame and channel. */
  lemma SlotOf(i: nat, ch: nat, c: nat, n: nat)
    requires i < n && ch < c
    ensures i * c + ch < n * c
    ensures (i * c + ch) / c == i && (i * c + ch) % c == ch
  {
    MulMonotone(i + 1, n, c);
    DivModUnique(i, ch, c);
  }

  /** Every slot below `n*c` is the slot of a frame below `n`. */
  lemma FrameOfSlot(slot: nat, c: nat, n: nat)
    requires c > 0 && slot < n * c
    ensures slot / c < n
  {
    if slot / c >= n {
      MulMonotone(n, slot / c, c);
    }
  }

  /** The sample in slot `slot` of the interleaved order: frame `slot / c`, channel `slot % c`. */
  function SlotSample(b: AudioBuffer, slot: nat): real
    requires b.Valid() && slot < b.length * |b.channels|
  {
    var c := |b.channels|;
    FrameOfSlot(slot, c, b.length);
    b.channels[slot % c][slot / c]
  }

  /** Slot `i*c + ch` holds frame i of channel ch. */
  lemma SlotSampleAt(b: AudioBuffer, i: nat, ch: nat)
    requires b.Valid() && i < b.length && ch < |b.channels|
    ensures i * |b.channels| + ch < b.length * |b.channels|
    ensures SlotSample(b, i * |b.channels| + ch) == b.channels[ch][i]
  {
    SlotOf(i, ch, |b.channels|, b.length);
  }

  /** Byte k of the sample data: half `k % 2` of the quantised sample in slot `k / 2`. */
  function DataByte(b: AudioBuffer, k: nat): Byte
    requires b.Valid() && k < b.length * |b.channels| * 2
  {
    LE16(Quantize(SlotSample(b, k / 2)))[k % 2]
  }

  /** The bytes of the exported file. */
  function WavBytes(b: AudioBuffer): (w: seq<Byte>)
    requires b.Valid()
  {
    var c := |b.channels|;
    Header(b.length, c, b.sampleRate) + seq(b.length * c * 2, k requires 0 <= k < b.length * c * 2 => DataByte(b, k))
  }

  /** The exported file is `44 + n*c*2` bytes and begins with the header of its own format. */
  lemma WavLayout(b: AudioBuffer)
    requires b.Valid()
    ensures |WavBytes(b)| == 44 + b.length * |b.channels| * 2
    ensures WavBytes(b)[..44] == Header(b.length, |b.channels|, b.sampleRate)
  {
  }

  /**
   * Frame i, channel ch sits at byte `44 + 2*(i*c + ch)` as the little-endian
   * two's complement of its quantised sample, and reads back as that value.
   */
  lemma WavSampleAt(b: AudioBuffer, i: nat, ch: nat)
    requires b.Valid() && i < b.length && ch < |b.channels|
    ensures 44 + 2 * (i * |b.channels| + ch) + 2 <= |WavBytes(b)|
    ensures WavBytes(b)[44 + 2 * (i * |b.channels| + ch) .. 44 + 2 * (i * |b.channels| + ch) + 2] == LE16(Quantize(b.channels[ch][i]))
    ensures I16At(WavBytes(b), 44 + 2 * (i * |b.channels| + ch)) == Quantize(b.channels[ch][i])
  {
    var slot := i * |b.channels| + ch;
    SlotSampleAt(b, i, ch);
    var w := WavBytes(b);
    var q := LE16(Quantize(b.channels[ch][i]));
    assert w[44 + 2 * slot] == DataByte(b, 2 * slot) == q[0];
    assert (2 * slot + 1) / 2 == slot;
    assert w[44 + 2 * slot + 1] == DataByte(b, 2 * slot + 1) == q[1];
    SignedRoundTrip(Quantize(b.channels[ch][i]));
    assert I16At(w, 44 + 2 * slot) == I16At(q, 0);
  }

  // ---------------------------------------------------------------------------
  // The export, writing a `DataView` over a fresh `ArrayBuffer`
  // ---------------------------------------------------------------------------

  /** The bytes `s` with `p` written over them from `offset` on. */
  function Put(s: seq<Byte>, offset: nat, p: seq<Byte>): (r: seq<Byte>)
    requires offset + |p| <= |s|
    ensures |r| == |s|
    ensures r[offset..offset + |p|] == p
    ensures r[..offset] == s[..offset] && r[offset + |p|..] == s[offset + |p|..]
  {
    s[..offset] + p + s[offset + |p|..]
  }

  /** Two adjacent writes are one write of their concatenation. */
  lemma PutPut(s: seq<Byte>, offset: nat, p: seq<Byte>, q: seq<Byte>)
    requires offset + |p| + |q| <= |s|
    ensures Put(Put(s, offset, p), offset + |p|, q) == Put(s, offset, p + q)
  {
    assert Put(Put(s, offset, p), offset + |p|, q) == s[..offset] + (p + q) + s[offset + |p| + |q|..];
  }

  /** `setUint8` for each character of `s`, from `offset` on. */
  method WriteString(view: array<Byte>, offset: nat, s: string)
    requires offset + |s| <= view.Length
    modifies view
    ensures view[..] == Put(old(view[..]), offset, Tag(s))
  {
    for i := 0 to |s|
      invariant forall k :: 0 <= k < view.Length ==> view[k] == if offset <= k < offset + i then Tag(s)[k - offset] else old(view[k])
    {
      view[offset + i] := (s[i] as int) % 256;
    }
    assert view[..] == Put(old(view[..]), offset, Tag(s));
  }

  /** `setUint16(offset, v, true)`. */
  method SetUint16(view: array<Byte>, offset: nat, v: int)
    requires offset + 2 <= view.Length
    modifies view
    ensures view[..] == Put(old(view[..]), offset, LE16(v))
  {
    var u := v % TWO16;
    view[offset] := u % 256;
    view[offset + 1] := u / 256;
    assert view[..] == Put(old(view[..]), offset, LE16(v));
  }

  /** `setUint32(offset, v, true)`. */
  method SetUint32(view: array<Byte>, offset: nat, v: int)
    requires offset + 4 <= view.Length
    modifies view
    ensures view[..] == Put(old(view[..]), offset, LE32(v))
  {
    var u := v % TWO32;
    view[offset] := u % 256;
    view[offset + 1] := (u / 0x100) % 256;
    view[offset + 2] := (u / 0x1_0000) % 256;
    view[offset + 3] := u / 0x100_0000;
    assert view[..] == Put(old(view[..]), offset, LE32(v));
  }

  /** `setInt16(offset, x, true)`: x truncated toward zero, stored modulo 2^16. */
  method SetInt16(view: array<Byte>, offset: nat, x: real)
    requires offset + 2 <= view.Length
    modifies view
    ensures view[..] == Put(old(view[..]), offset, LE16(Trunc(x)))
  {
    SetUint16(view, offset, Trunc(x));
  }

  /** The RIFF chunk header writes. */
  method WriteRiffHeader(view: array<Byte>, dataSize: nat)
    requires 12 <= view.Length
    modifies view
    ensures view[..] == Put(old(view[..]), 0, RiffHeader(dataSize))
  {
    ghost var v0 := view[..];
    WriteString(view, 0, "RIFF");
    SetUint32(view, 4, 36 + dataSize);
    PutPut(v0, 0, Tag("RIFF"), LE32(36 + dataSize));
    WriteString(view, 8, "WAVE");
    PutPut(v0, 0, Tag("RIFF") + LE32(36 + dataSize), Tag("WAVE"));
  }

  /** The `fmt ` chunk writes. */
  method WriteFmtChunk(view: array<Byte>, channels: nat, sampleRate: nat)
    requires 36 <= view.Length
    modifies view
    ensures view[..] == Put(old(view[..]), 12, FmtChunk(channels, sampleRate))
  {
    ghost var v0 := view[..];
    WriteString(view, 12, "fmt ");
    ghost var h := Tag("fmt ");
    SetUint32(view, 16, 16);
    PutPut(v0, 12, h, LE32(16));
    h := h + LE32(16);
    SetUint16(view, 20, 1);
    PutPut(v0, 12, h, LE16(1));
    h := h + LE16(1);
    SetUint16(view, 22, channels);
    PutPut(v0, 12, h, LE16(channels));
    h := h + LE16(channels);
    SetUint32(view, 24, sampleRate);
    PutPut(v0, 12, h, LE32(sampleRate));
    h := h + LE32(sampleRate);
    SetUint32(view, 28, sampleRate * channels * 2);
    PutPut(v0, 12, h, LE32(sampleRate * channels * 2));
    h := h + LE32(sampleRate * channels * 2);
    SetUint16(view, 32, channels * 2);
    PutPut(v0, 12, h, LE16(channels * 2));
    h := h + LE16(channels * 2);
    SetUint16(view, 34, 16);
    PutPut(v0, 12, h, LE16(16));
  }

  /** The `data` chunk header writes. */
  method WriteDataHeader(view: array<Byte>, dataSize: nat)
    requires 44 <= view.Length
    modifies view
    ensures view[..] == Put(old(view[..]), 36, DataHeader(dataSize))
  {
    ghost var v0 := view[..];
    WriteString(view, 36, "data");
    SetUint32(view, 40, dataSize);
    PutPut(v0, 36, Tag("data"), LE32(dataSize));
  }

  /** The header writes of `exportAudioBuffer`, in the source's order. */
  method WriteHeader(view: array<Byte>, length: nat, channels: nat, sampleRate: nat)
    requires 44 <= view.Length
    modifies view
    ensures view[..] == Put(old(view[..]), 0, Header(length, channels, sampleRate))
  {
    ghost var v0 := view[..];
    WriteRiffHeader(view, length * channels * 2);
    WriteFmtChunk(view, channels, sampleRate);
    PutPut(v0, 0, RiffHeader(length * channels * 2), FmtChunk(channels, sampleRate));
    WriteDataHeader(view, length * channels * 2);
    PutPut(v0, 0, RiffHeader(length * channels * 2) + FmtChunk(channels, sampleRate), DataHeader(length * channels * 2));
  }

  /** Writing the quantised sample of a slot after the slots before it extends the sample data by two bytes. */
  lemma PutSlot(v0: seq<Byte>, v1: seq<Byte>, b: AudioBuffer, slot: nat)
    requires b.Valid() && slot < b.length * |b.channels|
    requires |v0| == 44 + b.length * |b.channels| * 2
    requires forall p :: 44 <= p < 44 + 2 * slot ==> v0[p] == DataByte(b, p - 44)
    requires v1 == Put(v0, 44 + 2 * slot, LE16(Quantize(SlotSample(b, slot))))
    ensures v1[..44] == v0[..44]
    ensures forall p :: 44 <= p < 44 + 2 * slot + 2 ==> v1[p] == DataByte(b, p - 44)
  {
    var off := 44 + 2 * slot;
    forall p | 44 <= p < off + 2 ensures v1[p] == DataByte(b, p - 44) {
      if p < off {
        assert v1[p] == v1[..off][p];
      } else {
        assert (p - 44) / 2 == slot;
        assert v1[p] == v1[off..off + 2][p - off];
      }
    }
    assert v1[..44] == v1[..off][..44];
  }

  /** One `setInt16` of the export loop: the clamped, scaled sample of channel `channel` at frame i. */
  method WriteSample(view: array<Byte>, b: AudioBuffer, i: nat, channel: nat, offset: nat)
    requires b.Valid() && i < b.length && channel < |b.channels|
    requires view.Length == 44 + b.length * |b.channels| * 2
    requires offset == 44 + 2 * (i * |b.channels| + channel) && offset + 2 <= view.Length
    requires forall p :: 44 <= p < offset ==> view[p] == DataByte(b, p - 44)
    modifies view
    ensures view[..44] == old(view[..44])
    ensures forall p :: 44 <= p < offset + 2 ==> view[p] == DataByte(b, p - 44)
  {
    SlotSampleAt(b, i, channel);
    ghost var slot: nat := i * |b.channels| + channel;
    ghost var before := view[..];
    var sample := Clamp(b.channels[channel][i]);
    SetInt16(view, offset, sample * 32767.0);
    PutSlot(before, view[..], b, slot);
  }

  /** The inner loop: frame i's channels, from byte `offset` on. */
  method WriteFrame(view: array<Byte>, b: AudioBuffer, i: nat, offset: nat) returns (next: nat)
    requires b.Valid() && i < b.length
    requires view.Length == 44 + b.length * |b.channels| * 2
    requires offset == 44 + 2 * (i * |b.channels|) && offset + 2 * |b.channels| <= view.Length
    requires forall p :: 44 <= p < offset ==> view[p] == DataByte(b, p - 44)
    modifies view
    ensures next == offset + 2 * |b.channels|
    ensures view[..44] == old(view[..44])
    ensures forall p :: 44 <= p < next ==> view[p] == DataByte(b, p - 44)
  {
    var channels := |b.channels|;
    next := offset;
    var channel := 0;
    while channel < channels
      invariant channel <= channels
      invariant next == 44 + 2 * (i * channels + channel)
      invariant next + 2 * (channels - channel) <= view.Length
      invariant view[..44] == old(view[..44])
      invariant forall p :: 44 <= p < next ==> view[p] == DataByte(b, p - 44)
    {
      WriteSample(view, b, i, channel, next);
      next := next + 2;
      channel := channel + 1;
    }
  }

  /** `exportAudioBuffer`: the bytes it hands to the `Blob`. */
  method ExportAudioBuffer(b: AudioBuffer) returns (view: array<Byte>)
    requires b.Valid()
    ensures view[..] == WavBytes(b)
  {
    var length := b.length;
    var sampleRate := b.sampleRate;
    var channels := |b.channels|;
    view := new Byte[44 + length * channels * 2](_ => 0);
    WriteHeader(view, length, channels, sampleRate);
    var offset := 44;
    var i := 0;
    while i < length
      invariant i <= length
      invariant offset == 44 + 2 * (i * channels) && offset <= view.Length
      invariant view[..44] == Header(length, channels, sampleRate)
      invariant forall p :: 44 <= p < offset ==> view[p] == DataByte(b, p - 44)
    {
      MulMonotone(i + 1, length, channels);
      assert (i + 1) * channels == i * channels + channels;
      offset := WriteFrame(view, b, i, offset);
      i := i + 1;
    }
    assert offset == view.Length;
    ExportedIsWav(b, view[..]);
  }

  /** A byte sequence of the file's size that holds the header and then every data byte is the exported file. */
  lemma ExportedIsWav(b: AudioBuffer, v: seq<Byte>)
    requires b.Valid()
    requires |v| == 44 + b.length * |b.channels| * 2
    requires v[..44] == Header(b.length, |b.channels|, b.sampleRate)
    requires forall p :: 44 <= p < |v| ==> v[p] == DataByte(b, p - 44)
    ensures v == WavBytes(b)
  {
    var w := WavBytes(b);
    WavLayout(b);
    forall p | 0 <= p < |v|
      ensures v[p] == w[p]
    {
      if p < 44 {
        assert v[p] == v[..44][p] && w[p] == w[..44][p];
      }
    }
  }
}
