/**
 The WAV codec: a canonical little-endian RIFF WAVE file holding one PCM
 `fmt ` chunk (format tag 1, one channel, 16 bits per sample) followed by one
 `data` chunk. Loading parses the file's bytes, checking each header in
 turn; saving writes the 44-byte header and the samples as int16.

 Files are byte sequences here: opening, reading and writing are left out,
 and a file that cannot be opened is an absent byte sequence.
 */
module WavFile {

  /** A byte of the file, as an unsigned value. */
  type Byte = b: int | 0 <= b < 256

  /** Values of the C++ `int16_t` sample type. */
  type Int16 = x: int | -32768 <= x <= 32767

  datatype Option<T> = None | Some(value: T)

  /** `std::expected<T, std::string>`. */
  datatype Result<T> = Ok(value: T) | Err(error: string)

  /** `WAVData`: the sampling rate and the samples as floats. */
  datatype WavData = WavData(samplingRate: nat, samples: seq<real>)

  const RiffTag: seq<Byte> := [0x52, 0x49, 0x46, 0x46]  // "RIFF"
  const WaveTag: seq<Byte> := [0x57, 0x41, 0x56, 0x45]  // "WAVE"
  const FmtTag: seq<Byte> := [0x66, 0x6d, 0x74, 0x20]   // "fmt "
  const DataTag: seq<Byte> := [0x64, 0x61, 0x74, 0x61]  // "data"

  /** Size of the PCM `fmt ` chunk body, and of the whole header before the samples. */
  const FmtSize: nat := 16
  const HeaderSize: nat := 44

  const TwoTo16: nat := 0x1_0000
  const TwoTo32: nat := 0x1_0000_0000

  // ---------------------------------------------------------------------------
  // Little-endian fields
  // ---------------------------------------------------------------------------

  function Le16(v: nat): (b: seq<Byte>)
    requires v < TwoTo16
    ensures |b| == 2
  {
    [v % 256, v / 256]
  }

  function Le32(v: nat): (b: seq<Byte>)
    requires v < TwoTo32
    ensures |b| == 4
  {
    Le16(v % TwoTo16) + Le16(v / TwoTo16)
  }

  function U16(b: seq<Byte>): (v: nat)
    requires |b| == 2
    ensures v < TwoTo16
  {
    b[0] as int + 256 * b[1] as int
  }

  function U32(b: seq<Byte>): (v: nat)
    requires |b| == 4
    ensures v < TwoTo32
  {
    U16(b[..2]) + TwoTo16 * U16(b[2..])
  }

  /** Writing a 16-bit field and reading it back gives the value. */
  lemma {:induction false} U16OfLe16(v: nat)
    requires v < TwoTo16
    ensures U16(Le16(v)) == v
  {
  }

  /** Reading a 16-bit field and writing it back gives the bytes: the two are inverse bijections. */
  lemma {:induction false} Le16OfU16(b: seq<Byte>)
    requires |b| == 2
    ensures Le16(U16(b)) == b
  {
  }

  lemma {:induction false} U32OfLe32(v: nat)
    requires v < TwoTo32
    ensures U32(Le32(v)) == v
  {
    var b := Le32(v);
    assert b[..2] == Le16(v % TwoTo16) && b[2..] == Le16(v / TwoTo16);
    U16OfLe16(v % TwoTo16);
    U16OfLe16(v / TwoTo16);
  }

  lemma {:induction false} Le32OfU32(b: seq<Byte>)
    requires |b| == 4
    ensures Le32(U32(b)) == b
  {
    var lo, hi := U16(b[..2]), U16(b[2..]);
    assert U32(b) % TwoTo16 == lo && U32(b) / TwoTo16 == hi;
    Le16OfU16(b[..2]);
    Le16OfU16(b[2..]);
    assert b == b[..2] + b[2..];
  }

  /** The stored two's-complement bit pattern of a sample, and back. */
  function ToBits(s: Int16): (u: nat)
    ensures u < TwoTo16
  {
    if s < 0 then s + TwoTo16 else s
  }

  function FromBits(u: nat): Int16
    requires u < TwoTo16
  {
    if u >= 32768 then u - TwoTo16 else u
  }

  lemma {:induction false} BitsRoundTrip(s: Int16, u: nat)
    requires u < TwoTo16
    ensures FromBits(ToBits(s)) == s
    ensures ToBits(FromBits(u)) == u
  {
  }

  // ---------------------------------------------------------------------------
  // Header records
  // ---------------------------------------------------------------------------

  /** `ChunkHeader`: a four-byte id and a 32-bit size, 8 bytes on file. */
  datatype ChunkHeader = ChunkHeader(id: seq<Byte>, size: nat)
  {
    predicate Valid() {
      |id| == 4 && size < TwoTo32
    }
  }

  function HeaderBytes(h: ChunkHeader): (b: seq<Byte>)
    requires h.Valid()
    ensures |b| == 8
  {
    h.id + Le32(h.size)
  }

  function ReadHeader(b: seq<Byte>): (h: ChunkHeader)
    requires |b| == 8
    ensures h.Valid()
  {
    ChunkHeader(b[..4], U32(b[4..]))
  }

  lemma {:induction false} HeaderRoundTrip(h: ChunkHeader)
    requires h.Valid()
    ensures ReadHeader(HeaderBytes(h)) == h
  {
    var b := HeaderBytes(h);
    assert b[..4] == h.id && b[4..] == Le32(h.size);
    U32OfLe32(h.size);
  }

  /** `FmtChunk`: the PCM format description, 16 bytes on file. */
  datatype FmtChunk = FmtChunk(format: nat, channels: nat, samplingRate: nat, byteRate: nat,
                               blockAlign: nat, bitsPerSample: nat)
  {
    predicate Valid() {
      && format < TwoTo16 && channels < TwoTo16 && samplingRate < TwoTo32
      && byteRate < TwoTo32 && blockAlign < TwoTo16 && bitsPerSample < TwoTo16
    }
  }

  function FmtBytes(f: FmtChunk): (b: seq<Byte>)
    requires f.Valid()
    ensures |b| == FmtSize
  {
    Le16(f.format) + Le16(f.channels) + Le32(f.samplingRate) + Le32(f.byteRate)
    + Le16(f.blockAlign) + Le16(f.bitsPerSample)
  }

  function ReadFmt(b: seq<Byte>): (f: FmtChunk)
    requires |b| == FmtSize
    ensures f.Valid()
  {
    FmtChunk(U16(b[0..2]), U16(b[2..4]), U32(b[4..8]), U32(b[8..12]), U16(b[12..14]), U16(b[14..16]))
  }

  lemma {:induction false} FmtRoundTrip(f: FmtChunk)
    requires f.Valid()
    ensures ReadFmt(FmtBytes(f)) == f
  {
    var b := FmtBytes(f);
    assert b[0..2] == Le16(f.format) && b[2..4] == Le16(f.channels);
    assert b[4..8] == Le32(f.samplingRate) && b[8..12] == Le32(f.byteRate);
    assert b[12..14] == Le16(f.blockAlign);
    assert b[14..] == Le16(f.bitsPerSample);
    assert b[14..16] == b[14..];
    U16OfLe16(f.format);
    U16OfLe16(f.channels);
    U32OfLe32(f.samplingRate);
    U32OfLe32(f.byteRate);
    U16OfLe16(f.blockAlign);
    U16OfLe16(f.bitsPerSample);
  }

  // ---------------------------------------------------------------------------
  // Samples
  // ---------------------------------------------------------------------------

  /** `-float(s) / INT16_MIN`, which is s / 32768. */
  function DecodeSample(s: Int16): (x: real)
    ensures -1.0 <= x <= 32767.0 / 32768.0
    ensures x * 32768.0 == s as real
  {
    -(s as real) / -32768.0
  }

  /** `std::clamp(v, lo, hi)`. */
  function Clamp(v: real, lo: real, hi: real): (c: real)
    requires lo <= hi
    ensures lo <= c <= hi
    ensures lo <= v <= hi ==> c == v
  {
    if v < lo then lo else if hi < v then hi else v
  }

  /** Float to integer conversion: the fraction is dropped, rounding toward zero. */
  function Truncate(v: real): (n: int)
    ensures n as real <= v < n as real + 1.0 || n as real - 1.0 < v <= n as real
    ensures v >= 0.0 ==> 0 <= n && n as real <= v
    ensures v <= 0.0 ==> n <= 0 && v <= n as real
  {
    if v >= 0.0 then v.Floor else -((-v).Floor)
  }

  /** `clamp(-x * INT16_MIN, INT16_MIN, INT16_MAX)` stored in an `int16_t`. */
  function EncodeSample(x: real): (s: Int16)
  {
    var c := Clamp(-x * -32768.0, -32768.0, 32767.0);
    var n := Truncate(c);
    assert -32768 <= n <= 32767;
    n
  }

  /** Saving a loaded sample stores the same int16. */
  lemma {:induction false} EncodeDecode(s: Int16)
    ensures EncodeSample(DecodeSample(s)) == s
  {
    assert -DecodeSample(s) * -32768.0 == s as real;
    assert (s as real).Floor == s;
    assert (-(s as real)).Floor == -(s as int);
  }

  /**
   Samples in the representable range come back after a save and load with an
   error under one quantization step, toward zero.
   */
  lemma {:induction false} QuantizationError(x: real)
    requires -1.0 <= x <= 32767.0 / 32768.0
    ensures var y := DecodeSample(EncodeSample(x));
            -1.0 / 32768.0 < y - x < 1.0 / 32768.0
    ensures x >= 0.0 ==> 0.0 <= DecodeSample(EncodeSample(x)) <= x
    ensures x <= 0.0 ==> x <= DecodeSample(EncodeSample(x)) <= 0.0
  {
    var v := x * 32768.0;
    assert -x * -32768.0 == v;
    assert -32768.0 <= v <= 32767.0;
    var s := EncodeSample(x);
    assert s == Truncate(v);
    assert DecodeSample(s) == s as real / 32768.0;
  }

  /** Samples beyond full scale saturate. */
  lemma {:induction false} Saturation(x: real)
    ensures x >= 32767.0 / 32768.0 ==> EncodeSample(x) == 32767
    ensures x <= -1.0 ==> EncodeSample(x) == -32768
  {
    assert -x * -32768.0 == x * 32768.0;
  }

  function DecodeAll(raw: seq<Int16>): (xs: seq<real>)
    ensures |xs| == |raw|
    ensures forall i :: 0 <= i < |raw| ==> xs[i] == DecodeSample(raw[i])
  {
    seq(|raw|, i requires 0 <= i < |raw| => DecodeSample(raw[i]))
  }

  function EncodeAll(xs: seq<real>): (raw: seq<Int16>)
    ensures |raw| == |xs|
    ensures forall i :: 0 <= i < |xs| ==> raw[i] == EncodeSample(xs[i])
  {
    seq(|xs|, i requires 0 <= i < |xs| => EncodeSample(xs[i]))
  }

  /** Encoding after decoding is the identity on every stored sample sequence. */
  lemma {:induction false} EncodeAllDecodeAll(raw: seq<Int16>)
    ensures EncodeAll(DecodeAll(raw)) == raw
  {
    forall i | 0 <= i < |raw| ensures EncodeAll(DecodeAll(raw))[i] == raw[i] {
      EncodeDecode(raw[i]);
    }
  }

  /** The samples as stored: two little-endian bytes each. */
  function SampleBytes(raw: seq<Int16>): (b: seq<Byte>)
    ensures |b| == 2 * |raw|
  {
    if |raw| == 0 then [] else Le16(ToBits(raw[0])) + SampleBytes(raw[1..])
  }

  /** The stored samples read back from their bytes. */
  function ReadSamples(b: seq<Byte>): (raw: seq<Int16>)
    requires |b| % 2 == 0
    ensures |raw| == |b| / 2
  {
    if |b| == 0 then [] else [FromBits(U16(b[..2]))] + ReadSamples(b[2..])
  }

  lemma {:induction false} ReadSampleBytes(raw: seq<Int16>)
    ensures ReadSamples(SampleBytes(raw)) == raw
  {
    if |raw| > 0 {
      var b := SampleBytes(raw);
      assert b[..2] == Le16(ToBits(raw[0]));
      assert b[2..] == SampleBytes(raw[1..]);
      U16OfLe16(ToBits(raw[0]));
      BitsRoundTrip(raw[0], 0);
      ReadSampleBytes(raw[1..]);
      assert raw == [raw[0]] + raw[1..];
    }
  }

  // ---------------------------------------------------------------------------
  // Loading
  // ---------------------------------------------------------------------------

  /**
   `load_wav` on the bytes of an opened file. Each header is read in turn and
   the first one that is short or wrong names the error. The RIFF size, the
   byte rate and the block alignment are read but not checked, and bytes after
   the sample data are ignored.
   */
  function Parse(bytes: seq<Byte>): (r: Result<WavData>)
    ensures r.Ok? ==> HeaderSize + 2 * |r.value.samples| <= |bytes| && r.value.samplingRate < TwoTo32
    ensures r.Ok? ==> forall i :: 0 <= i < |r.value.samples| ==> -1.0 <= r.value.samples[i] <= 32767.0 / 32768.0
  {
    if |bytes| < 8 || ReadHeader(bytes[0..8]).id != RiffTag then Err("Bad RIFF header")
    else if |bytes| < 12 || bytes[8..12] != WaveTag then Err("Bad WAVE header")
    else if |bytes| < 20 || ReadHeader(bytes[12..20]).id != FmtTag || ReadHeader(bytes[12..20]).size != FmtSize then
      Err("Bad FMT header")
    else if |bytes| < 36 then Err("Bad FMT chunk")
    else
      var fmt := ReadFmt(bytes[20..36]);
      if fmt.format != 1 || fmt.channels != 1 || fmt.bitsPerSample != 16 then Err("Unhandled audio format")
      else if |bytes| < 44 || ReadHeader(bytes[36..44]).id != DataTag || ReadHeader(bytes[36..44]).size % 2 != 0 then
        Err("Bad DATA header")
      else
        var n := ReadHeader(bytes[36..44]).size / 2;
        if |bytes| < HeaderSize + 2 * n then Err("End of file")
        else Ok(WavData(fmt.samplingRate, DecodeAll(ReadSamples(bytes[HeaderSize..HeaderSize + 2 * n]))))
  }

  /**
   The files `load_wav` accepts, stated as one condition on the 44-byte header:
   the RIFF and WAVE tags, a 16-byte fmt chunk describing mono 16-bit PCM, and
   a data chunk of even size whose samples are all present.
   */
  predicate WellFormed(bytes: seq<Byte>) {
    && |bytes| >= HeaderSize
    && ReadHeader(bytes[0..8]).id == RiffTag
    && bytes[8..12] == WaveTag
    && ReadHeader(bytes[12..20]) == ChunkHeader(FmtTag, FmtSize)
    && ReadFmt(bytes[20..36]).format == 1
    && ReadFmt(bytes[20..36]).channels == 1
    && ReadFmt(bytes[20..36]).bitsPerSample == 16
    && ReadHeader(bytes[36..44]).id == DataTag
    && ReadHeader(bytes[36..44]).size % 2 == 0
    && HeaderSize + ReadHeader(bytes[36..44]).size <= |bytes|
  }

  /** What a well-formed file holds: the fmt chunk's rate and the data chunk's samples. */
  function Contents(bytes: seq<Byte>): WavData
    requires WellFormed(bytes)
  {
    var size := ReadHeader(bytes[36..44]).size;
    WavData(ReadFmt(bytes[20..36]).samplingRate, DecodeAll(ReadSamples(bytes[HeaderSize..HeaderSize + size])))
  }

  /** Loading succeeds exactly on well-formed files, and then yields their contents. */
  lemma {:induction false} ParseWellFormed(bytes: seq<Byte>)
    ensures Parse(bytes).Ok? <==> WellFormed(bytes)
    ensures WellFormed(bytes) ==> Parse(bytes) == Ok(Contents(bytes))
  {
  }

  /** `load_wav`: a file that cannot be opened is an error of its own. */
  function Load(file: Option<seq<Byte>>): (r: Result<WavData>)
    ensures file.None? ==> r == Err("Failed to open file")
    ensures file.Some? ==> r == Parse(file.value)
  {
    match file
    case None => Err("Failed to open file")
    case Some(bytes) => Parse(bytes)
  }

  /** Every way loading can fail, by message. */
  predicate IsLoadError(msg: string) {
    msg in {"Failed to open file", "Bad RIFF header", "Bad WAVE header", "Bad FMT header",
            "Bad FMT chunk", "Unhandled audio format", "Bad DATA header", "End of file"}
  }

  lemma {:induction false} LoadErrors(file: Option<seq<Byte>>)
    ensures Load(file).Err? ==> IsLoadError(Load(file).error)
  {
  }

  /** A well-formed file keeps its header fields in any longer file that starts with it. */
  lemma {:induction false} HeaderOfPrefix(bytes: seq<Byte>, b: seq<Byte>)
    requires |bytes| >= HeaderSize && |b| >= HeaderSize && b[..HeaderSize] == bytes[..HeaderSize]
    ensures b[0..8] == bytes[0..8] && b[8..12] == bytes[8..12] && b[12..20] == bytes[12..20]
    ensures b[20..36] == bytes[20..36] && b[36..44] == bytes[36..44]
  {
    assert b[0..8] == b[..HeaderSize][0..8] && bytes[0..8] == bytes[..HeaderSize][0..8];
    assert b[8..12] == b[..HeaderSize][8..12] && bytes[8..12] == bytes[..HeaderSize][8..12];
    assert b[12..20] == b[..HeaderSize][12..20] && bytes[12..20] == bytes[..HeaderSize][12..20];
    assert b[20..36] == b[..HeaderSize][20..36] && bytes[20..36] == bytes[..HeaderSize][20..36];
    assert b[36..44] == b[..HeaderSize][36..44] && bytes[36..44] == bytes[..HeaderSize][36..44];
  }

  /** A file cut short of its declared sample data fails to load, whatever else it holds. */
  lemma {:induction false} TruncatedFails(bytes: seq<Byte>, k: nat)
    requires WellFormed(bytes) && k < HeaderSize + ReadHeader(bytes[36..44]).size
    ensures Parse(bytes[..k]).Err?
  {
    var b := bytes[..k];
    ParseWellFormed(b);
    if k >= HeaderSize {
      HeaderOfPrefix(bytes, b);
    }
  }

  /** Bytes after the sample data do not change what is loaded. */
  lemma {:induction false} TrailingBytesIgnored(bytes: seq<Byte>, extra: seq<Byte>)
    requires WellFormed(bytes)
    ensures Parse(bytes + extra) == Parse(bytes)
  {
    var b := bytes + extra;
    var size := ReadHeader(bytes[36..44]).size;
    assert b[..HeaderSize + size] == bytes[..HeaderSize + size];
    HeaderOfPrefix(bytes, b);
    assert b[HeaderSize..HeaderSize + size] == bytes[HeaderSize..HeaderSize + size];
    assert WellFormed(b) && Contents(b) == Contents(bytes);
    ParseWellFormed(bytes);
    ParseWellFormed(b);
  }

  /** The RIFF chunk size is read but never checked: whatever it says, loading gives the same result. */
  lemma {:induction false} RiffSizeIgnored(bytes: seq<Byte>, size: nat)
    requires |bytes| >= 8 && size < TwoTo32
    ensures Parse(bytes[..4] + Le32(size) + bytes[8..]) == Parse(bytes)
  {
    var b := bytes[..4] + Le32(size) + bytes[8..];
    assert |b| == |bytes|;
    assert ReadHeader(b[0..8]).id == b[0..4] == bytes[0..4] == ReadHeader(bytes[0..8]).id;
    assert forall i, j :: 8 <= i <= j <= |b| ==> b[i..j] == bytes[i..j];
    if |b| >= HeaderSize {
      var n := ReadHeader(bytes[36..44]).size / 2;
      if HeaderSize + 2 * n <= |b| {
        assert b[HeaderSize..HeaderSize + 2 * n] == bytes[HeaderSize..HeaderSize + 2 * n];
      }
    }
  }

  // ---------------------------------------------------------------------------
  // Saving
  // ---------------------------------------------------------------------------

  /** The fmt chunk `save_wav` fills in: PCM, mono, 16 bits, the byte rate wrapping at 32 bits. */
  function SavedFmt(fs: nat): (f: FmtChunk)
    ensures f.Valid()
  {
    var rate := fs % TwoTo32;
    var blockAlign := 1 * 16 / 8;
    FmtChunk(1, 1, rate, (rate * blockAlign) % TwoTo32, blockAlign, 16)
  }

  /** The data header for `n` samples, and the RIFF header around everything after it. */
  function SavedDataHeader(n: nat): (h: ChunkHeader)
    ensures h.Valid()
  {
    ChunkHeader(DataTag, (n * 2) % TwoTo32)
  }

  function SavedRiffHeader(n: nat): (h: ChunkHeader)
    ensures h.Valid()
  {
    ChunkHeader(RiffTag, (4 + 8 + FmtSize + 8 + SavedDataHeader(n).size) % TwoTo32)
  }

  /** `save_wav`'s bytes, in the order of its six writes. */
  function Serialize(d: WavData): (bytes: seq<Byte>)
    ensures |bytes| == HeaderSize + 2 * |d.samples|
  {
    var n := |d.samples|;
    HeaderBytes(SavedRiffHeader(n))
    + WaveTag
    + HeaderBytes(ChunkHeader(FmtTag, FmtSize))
    + FmtBytes(SavedFmt(d.samplingRate))
    + HeaderBytes(SavedDataHeader(n))
    + SampleBytes(EncodeAll(d.samples))
  }

  /** `save_wav`: nothing is written, and false returned, when the file cannot be opened. */
  function Save(d: WavData, canOpen: bool): (written: Option<seq<Byte>>)
    ensures written.Some? <==> canOpen
    ensures canOpen ==> written.value == Serialize(d)
  {
    if canOpen then Some(Serialize(d)) else None
  }

  /** Where each of the six writes lands in the saved bytes. */
  lemma {:induction false} SavedLayout(d: WavData)
    ensures var b := Serialize(d);
            var n := |d.samples|;
            && b[0..8] == HeaderBytes(SavedRiffHeader(n))
            && b[8..12] == WaveTag
            && b[12..20] == HeaderBytes(ChunkHeader(FmtTag, FmtSize))
            && b[20..36] == FmtBytes(SavedFmt(d.samplingRate))
            && b[36..44] == HeaderBytes(SavedDataHeader(n))
            && b[44..] == SampleBytes(EncodeAll(d.samples))
  {
  }

  /**
   The header fields `save_wav` writes, read back: fmt size 16, PCM, mono,
   16 bits, block alignment 2, byte rate 2*fs, data size 2n, RIFF size 36 + 2n,
   the 32-bit fields modulo 2^32.
   */
  lemma {:induction false} SavedHeaderFields(d: WavData)
    ensures var b := Serialize(d);
            var n := |d.samples|;
            var fmt := ReadFmt(b[20..36]);
            && ReadHeader(b[0..8]) == ChunkHeader(RiffTag, (36 + (2 * n) % TwoTo32) % TwoTo32)
            && b[8..12] == WaveTag
            && ReadHeader(b[12..20]) == ChunkHeader(FmtTag, 16)
            && fmt.format == 1 && fmt.channels == 1 && fmt.bitsPerSample == 16
            && fmt.samplingRate == d.samplingRate % TwoTo32
            && fmt.blockAlign == 2
            && fmt.byteRate == (2 * (d.samplingRate % TwoTo32)) % TwoTo32
            && ReadHeader(b[36..44]) == ChunkHeader(DataTag, (2 * n) % TwoTo32)
  {
    var n := |d.samples|;
    SavedLayout(d);
    hide Serialize, ReadHeader, ReadFmt, HeaderBytes, FmtBytes, Le16, Le32, U16, U32, SampleBytes, EncodeAll;
    HeaderRoundTrip(SavedRiffHeader(n));
    HeaderRoundTrip(ChunkHeader(FmtTag, FmtSize));
    FmtRoundTrip(SavedFmt(d.samplingRate));
    HeaderRoundTrip(SavedDataHeader(n));
  }

  /** A saved file is well formed when its data size fits the 32-bit field, and declares what was saved. */
  lemma {:induction false} SavedWellFormed(d: WavData)
    requires 2 * |d.samples| < TwoTo32
    ensures var b := Serialize(d);
            && WellFormed(b)
            && ReadHeader(b[36..44]).size == 2 * |d.samples|
            && ReadFmt(b[20..36]).samplingRate == d.samplingRate % TwoTo32
  {
    var n := |d.samples|;
    SavedHeaderFields(d);
    hide Serialize, ReadHeader, ReadFmt, SampleBytes, EncodeAll;
    assert (2 * n) % TwoTo32 == 2 * n;
  }

  /**
   Save then load: the sampling rate (modulo 2^32, the width of the header
   field) and the samples as quantized to int16. The data size must fit its
   32-bit field.
   */
  lemma {:induction false} SaveThenLoad(d: WavData)
    requires 2 * |d.samples| < TwoTo32
    ensures Parse(Serialize(d)) == Ok(WavData(d.samplingRate % TwoTo32, DecodeAll(EncodeAll(d.samples))))
  {
    var n := |d.samples|;
    var raw := EncodeAll(d.samples);
    var b := Serialize(d);
    SavedLayout(d);
    SavedWellFormed(d);
    ParseWellFormed(b);
    hide Serialize, Parse, WellFormed, ReadHeader, ReadFmt, SampleBytes, ReadSamples, DecodeAll, EncodeAll;
    assert b[HeaderSize..HeaderSize + 2 * n] == SampleBytes(raw);
    ReadSampleBytes(raw);
  }

  /** Loading a file and saving what was loaded gives a file that loads the same: decoding loses nothing. */
  lemma {:induction false} LoadThenSave(bytes: seq<Byte>)
    requires WellFormed(bytes)
    ensures Parse(Serialize(Contents(bytes))) == Parse(bytes)
  {
    hide Serialize, Parse, SampleBytes, ReadSamples, DecodeAll, EncodeAll;
    var d := Contents(bytes);
    var size := ReadHeader(bytes[36..44]).size;
    var raw := ReadSamples(bytes[HeaderSize..HeaderSize + size]);
    var rate := ReadFmt(bytes[20..36]).samplingRate;
    assert d == WavData(rate, DecodeAll(raw));
    assert 2 * |d.samples| == size < TwoTo32;
    assert rate % TwoTo32 == rate;
    ParseWellFormed(bytes);
    SaveThenLoad(d);
    EncodeAllDecodeAll(raw);
  }
}
