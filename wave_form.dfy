/** The canonical PCM "WAVE" container that pcmToWav produces, stated as pure
    functions: a RIFF chunk header, a 16-byte "fmt " chunk (format tag 1 = PCM,
    mono, 16 bits per sample) and a "data" chunk holding the samples. */
module WaveForm {
  import opened Bytes

  datatype Option<T> = None | Some(value: T)

  const NumChannels: int := 1
  const SampleBitLength: int := 16
  const BytesPerSample: int := SampleBitLength / 8
  const BlockAlign: int := NumChannels * BytesPerSample
  /** Size of everything in front of the samples. */
  const HeaderSize: int := 44

  /** The ASCII chunk tags: "RIFF", "WAVE", "fmt " and "data". */
  const RiffTag: seq<byte> := [0x52, 0x49, 0x46, 0x46]
  const WaveTag: seq<byte> := [0x57, 0x41, 0x56, 0x45]
  const FmtTag: seq<byte> := [0x66, 0x6D, 0x74, 0x20]
  const DataTag: seq<byte> := [0x64, 0x61, 0x74, 0x61]

  /** The container fields a reader recovers: the rate and the samples. */
  datatype Wave = Wave(rate: int, samples: seq<int16>)

  /** The byte rate header field before truncation. */
  function ByteRate(sampleRate: int): (r: int)
    ensures r == 2 * sampleRate
  {
    sampleRate * NumChannels * BytesPerSample
  }

  /** The samples as consecutive little-endian 16-bit words, in order. */
  function Payload(samples: seq<int16>): (r: seq<byte>)
    ensures |r| == 2 * |samples|
  {
    if samples == [] then []
    else Payload(samples[..|samples| - 1]) + LE16(samples[|samples| - 1] as int)
  }

  /** The RIFF chunk descriptor: tag, the size of everything after the size
      field (36 + dataSize) and the form type. */
  function RiffDescriptor(n: nat): (r: seq<byte>)
    ensures |r| == 12
  {
    RiffTag + LE32(36 + n * BytesPerSample) + WaveTag
  }

  /** The first half of the "fmt " chunk: tag, chunk size 16, format tag 1
      (PCM) and the channel count. */
  function FmtFormat(): (r: seq<byte>)
    ensures |r| == 12
  {
    FmtTag + LE32(16) + LE16(1) + LE16(NumChannels)
  }

  /** The second half of the "fmt " chunk: rate, byte rate, block alignment
      and sample width. */
  function FmtRates(sampleRate: int): (r: seq<byte>)
    ensures |r| == 12
  {
    LE32(sampleRate) + LE32(ByteRate(sampleRate)) + LE16(BlockAlign) + LE16(SampleBitLength)
  }

  /** The "fmt " chunk, 24 octets. */
  function FmtChunk(sampleRate: int): (r: seq<byte>)
    ensures |r| == 24
  {
    FmtFormat() + FmtRates(sampleRate)
  }

  /** The header of the "data" chunk: tag and payload size (dataSize, the
      Int16Array's byteLength, 2 octets per sample). */
  function DataChunkHeader(n: nat): (r: seq<byte>)
    ensures |r| == 8
  {
    DataTag + LE32(n * BytesPerSample)
  }

  /** The 44 header octets for n samples at the given rate. */
  function Header(n: nat, sampleRate: int): (r: seq<byte>)
    ensures |r| == HeaderSize
  {
    RiffDescriptor(n) + FmtChunk(sampleRate) + DataChunkHeader(n)
  }

  /** The complete container for the samples at the given rate. */
  function WavSpec(samples: seq<int16>, sampleRate: int): (r: seq<byte>)
    ensures |r| == HeaderSize + 2 * |samples|
    ensures r[..HeaderSize] == Header(|samples|, sampleRate) && r[HeaderSize..] == Payload(samples)
  {
    Header(|samples|, sampleRate) + Payload(samples)
  }

  /** The samples a run of little-endian 16-bit words stands for. */
  function DecodeSamples(p: seq<byte>): (r: seq<int16>)
    requires |p| % 2 == 0
    ensures |r| == |p| / 2
  {
    if p == [] then []
    else DecodeSamples(p[..|p| - 2]) + [I16At(p, |p| - 2)]
  }

  /** The four chunk tags stand at offsets 0, 8, 12 and 36. */
  predicate TagsPresent(b: seq<byte>)
    requires |b| >= HeaderSize
  {
    b[0..4] == RiffTag && b[8..12] == WaveTag && b[12..16] == FmtTag && b[36..40] == DataTag
  }

  /** The RIFF size is the length less 8 and the data size the length less the header. */
  predicate SizesMatch(b: seq<byte>)
    requires |b| >= HeaderSize
  {
    U32At(b, 4) == |b| - 8 && U32At(b, 40) == |b| - HeaderSize
  }

  /** The fmt chunk describes 16-bit mono PCM with a consistent byte rate. */
  predicate PcmMono16(b: seq<byte>)
    requires |b| >= HeaderSize
  {
    U32At(b, 16) == 16 && U16At(b, 20) == 1 && U16At(b, 22) == NumChannels
    && U32At(b, 28) == ByteRate(U32At(b, 24))
    && U16At(b, 32) == BlockAlign && U16At(b, 34) == SampleBitLength
  }

  /** A reader for the container: it accepts exactly the layout above (tags,
      fixed fmt fields, both size fields consistent with the length) and
      returns the rate and the samples. */
  function ParseWav(b: seq<byte>): Option<Wave>
  {
    if |b| < HeaderSize then None
    else
      var payload := b[HeaderSize..];
      if |payload| % 2 != 0 || !TagsPresent(b) || !SizesMatch(b) || !PcmMono16(b) then None
      else Some(Wave(U32At(b, 24), DecodeSamples(payload)))
  }

  /** Where the RIFF chunk header fields sit: tag, size, form type. */
  lemma RiffLayout(n: nat, sampleRate: int)
    ensures var h := Header(n, sampleRate);
      h[0..4] == RiffTag && h[4..8] == LE32(36 + 2 * n) && h[8..12] == WaveTag
  {
    var h := Header(n, sampleRate);
    var r := RiffDescriptor(n);
    assert h[0..12] == r;
    assert r[0..4] == RiffTag && r[4..8] == LE32(36 + 2 * n) && r[8..12] == WaveTag;
  }

  /** Where the "fmt " chunk fields sit: tag, chunk size, format tag and channels. */
  lemma FmtLayout(n: nat, sampleRate: int)
    ensures var h := Header(n, sampleRate);
      h[12..16] == FmtTag && h[16..20] == LE32(16) && h[20..22] == LE16(1) && h[22..24] == LE16(1)
  {
    var h := Header(n, sampleRate);
    var f := FmtFormat();
    assert h[12..36] == FmtChunk(sampleRate);
    assert h[12..24] == f;
    assert f[0..4] == FmtTag && f[4..8] == LE32(16) && f[8..10] == LE16(1) && f[10..12] == LE16(1);
  }

  /** Where the rate, byte rate, block alignment and sample width sit. */
  lemma RateLayout(n: nat, sampleRate: int)
    ensures var h := Header(n, sampleRate);
      h[24..28] == LE32(sampleRate) && h[28..32] == LE32(2 * sampleRate)
      && h[32..34] == LE16(2) && h[34..36] == LE16(16)
  {
    var h := Header(n, sampleRate);
    var f := FmtRates(sampleRate);
    assert h[12..36] == FmtChunk(sampleRate);
    assert h[24..36] == f;
    assert f[0..4] == LE32(sampleRate) && f[4..8] == LE32(2 * sampleRate)
      && f[8..10] == LE16(2) && f[10..12] == LE16(16);
  }

  /** Where the "data" chunk header fields sit: tag and payload size. */
  lemma DataLayout(n: nat, sampleRate: int)
    ensures var h := Header(n, sampleRate); h[36..40] == DataTag && h[40..44] == LE32(2 * n)
  {
    var h := Header(n, sampleRate);
    var d := DataChunkHeader(n);
    assert h[36..44] == d;
    assert d[0..4] == DataTag && d[4..8] == LE32(2 * n);
  }

  /** The tag octets are ASCII "RIFF", "WAVE", "fmt " and "data" at 0, 8, 12 and 36. */
  lemma HeaderTags(samples: seq<int16>, sampleRate: int)
    ensures var w := WavSpec(samples, sampleRate);
      w[0..4] == [0x52, 0x49, 0x46, 0x46] && w[8..12] == [0x57, 0x41, 0x56, 0x45]
      && w[12..16] == [0x66, 0x6D, 0x74, 0x20] && w[36..40] == [0x64, 0x61, 0x74, 0x61]
  {
    var w := WavSpec(samples, sampleRate);
    RiffLayout(|samples|, sampleRate);
    FmtLayout(|samples|, sampleRate);
    DataLayout(|samples|, sampleRate);
    assert w[0..4] == w[..HeaderSize][0..4] && w[8..12] == w[..HeaderSize][8..12];
    assert w[12..16] == w[..HeaderSize][12..16] && w[36..40] == w[..HeaderSize][36..40];
  }

  /** The header octets of a container are those of its Header, field by field. */
  lemma WavLayout(samples: seq<int16>, sampleRate: int)
    ensures var w := WavSpec(samples, sampleRate); var n := |samples|;
      w[4..8] == LE32(36 + 2 * n)
      && w[16..20] == LE32(16) && w[20..22] == LE16(1) && w[22..24] == LE16(1)
      && w[24..28] == LE32(sampleRate) && w[28..32] == LE32(2 * sampleRate)
      && w[32..34] == LE16(2) && w[34..36] == LE16(16) && w[40..44] == LE32(2 * n)
  {
    var w := WavSpec(samples, sampleRate);
    var h := w[..HeaderSize];
    RiffLayout(|samples|, sampleRate);
    FmtLayout(|samples|, sampleRate);
    RateLayout(|samples|, sampleRate);
    DataLayout(|samples|, sampleRate);
    assert w[4..8] == h[4..8] && w[16..20] == h[16..20] && w[20..22] == h[20..22];
    assert w[22..24] == h[22..24] && w[24..28] == h[24..28] && w[28..32] == h[28..32];
    assert w[32..34] == h[32..34] && w[34..36] == h[34..36] && w[40..44] == h[40..44];
  }

  /** Bytes 4..7 hold 36 + dataSize and bytes 40..43 hold dataSize, each
      truncated to 32 bits as setUint32 does. */
  lemma HeaderSizes(samples: seq<int16>, sampleRate: int)
    ensures var w := WavSpec(samples, sampleRate);
      U32At(w, 4) == (36 + 2 * |samples|) % TWO32 && U32At(w, 40) == 2 * |samples| % TWO32
  {
    var w := WavSpec(samples, sampleRate);
    WavLayout(samples, sampleRate);
    ReadLE32(w, 4, 36 + 2 * |samples|);
    ReadLE32(w, 40, 2 * |samples|);
  }

  /** Bytes 16..35: chunk size 16, PCM, mono, the rate, twice the rate, block
      alignment 2 and 16 bits per sample; the rate fields truncated to 32 bits. */
  lemma FmtFields(samples: seq<int16>, sampleRate: int)
    ensures var w := WavSpec(samples, sampleRate);
      U32At(w, 16) == 16 && U16At(w, 20) == 1 && U16At(w, 22) == 1
      && U32At(w, 24) == sampleRate % TWO32 && U32At(w, 28) == (2 * sampleRate) % TWO32
      && U16At(w, 32) == 2 && U16At(w, 34) == 16
  {
    var w := WavSpec(samples, sampleRate);
    WavLayout(samples, sampleRate);
    ReadLE32(w, 16, 16);
    ReadLE16(w, 20, 1);
    ReadLE16(w, 22, 1);
    ReadLE32(w, 24, sampleRate);
    ReadLE32(w, 28, 2 * sampleRate);
    ReadLE16(w, 32, 2);
    ReadLE16(w, 34, 16);
  }

  /** Words 2i, 2i+1 of the payload are the encoding of sample i. */
  lemma {:induction false} PayloadAt(samples: seq<int16>, i: nat)
    requires i < |samples|
    ensures Payload(samples)[2 * i..2 * i + 2] == LE16(samples[i] as int)
  {
    var n := |samples| - 1;
    var init := samples[..n];
    assert Payload(samples) == Payload(init) + LE16(samples[n] as int);
    if i < n {
      PayloadAt(init, i);
      assert Payload(samples)[2 * i..2 * i + 2] == Payload(init)[2 * i..2 * i + 2];
    }
  }

  /** Sample i sits at bytes 44 + 2i and 45 + 2i, low octet first, and a signed
      little-endian read there gives it back. */
  lemma SampleAt(samples: seq<int16>, sampleRate: int, i: nat)
    requires i < |samples|
    ensures var w := WavSpec(samples, sampleRate);
      w[44 + 2 * i..46 + 2 * i] == LE16(samples[i] as int) && I16At(w, 44 + 2 * i) == samples[i]
  {
    var w := WavSpec(samples, sampleRate);
    PayloadAt(samples, i);
    assert w[44 + 2 * i..46 + 2 * i] == Payload(samples)[2 * i..2 * i + 2];
    Int16RoundTrip(samples[i]);
    assert I16At(w, 44 + 2 * i) == I16At(w[44 + 2 * i..46 + 2 * i], 0);
  }

  /** No samples: the 44-byte header alone, declaring sizes 36 and 0. */
  lemma EmptyContainer(sampleRate: int)
    ensures var w := WavSpec([], sampleRate);
      w == Header(0, sampleRate) && |w| == 44 && U32At(w, 4) == 36 && U32At(w, 40) == 0
  {
    HeaderSizes([], sampleRate);
  }

  /** Decoding the payload gives the samples back. */
  lemma {:induction false} DecodePayload(samples: seq<int16>)
    ensures DecodeSamples(Payload(samples)) == samples
  {
    if samples != [] {
      var n := |samples| - 1;
      var p := Payload(samples);
      assert p[..|p| - 2] == Payload(samples[..n]);
      assert p[|p| - 2..] == LE16(samples[n] as int);
      DecodePayload(samples[..n]);
      Int16RoundTrip(samples[n]);
      assert I16At(p, |p| - 2) == I16At(p[|p| - 2..], 0);
    }
  }

  /** Every even-length run of octets is the payload of the samples it decodes to. */
  lemma {:induction false} PayloadDecode(p: seq<byte>)
    requires |p| % 2 == 0
    ensures Payload(DecodeSamples(p)) == p
  {
    if p != [] {
      var d := DecodeSamples(p);
      var init := p[..|p| - 2];
      assert d[..|d| - 1] == DecodeSamples(init);
      PayloadDecode(init);
      LE16Canonical(p, |p| - 2);
      assert p == init + p[|p| - 2..];
    }
  }

  /** Round trip: reading back a container whose size and rate fields do not
      wrap yields exactly the rate and the samples it was built from. */
  lemma {:induction false} ParseWavSpec(samples: seq<int16>, sampleRate: int)
    requires 36 + 2 * |samples| < TWO32
    requires 0 <= sampleRate && 2 * sampleRate < TWO32
    ensures ParseWav(WavSpec(samples, sampleRate)) == Some(Wave(sampleRate, samples))
  {
    var w := WavSpec(samples, sampleRate);
    AcceptedFields(samples, sampleRate);
    assert DecodeSamples(w[HeaderSize..]) == samples by {
      DecodePayload(samples);
    }
  }

  /** The encoder's header passes each of the reader's checks when no field wraps. */
  lemma AcceptedFields(samples: seq<int16>, sampleRate: int)
    requires 36 + 2 * |samples| < TWO32
    requires 0 <= sampleRate && 2 * sampleRate < TWO32
    ensures var w := WavSpec(samples, sampleRate);
      TagsPresent(w) && SizesMatch(w) && PcmMono16(w) && U32At(w, 24) == sampleRate
  {
    AcceptedTags(samples, sampleRate);
    AcceptedSizes(samples, sampleRate);
    AcceptedFmt(samples, sampleRate);
  }

  lemma AcceptedTags(samples: seq<int16>, sampleRate: int)
    ensures TagsPresent(WavSpec(samples, sampleRate))
  {
    HeaderTags(samples, sampleRate);
  }

  lemma AcceptedSizes(samples: seq<int16>, sampleRate: int)
    requires 36 + 2 * |samples| < TWO32
    ensures SizesMatch(WavSpec(samples, sampleRate))
  {
    ModSmall(36 + 2 * |samples|);
    ModSmall(2 * |samples|);
    HeaderSizes(samples, sampleRate);
  }

  lemma AcceptedFmt(samples: seq<int16>, sampleRate: int)
    requires 0 <= sampleRate && 2 * sampleRate < TWO32
    ensures var w := WavSpec(samples, sampleRate); PcmMono16(w) && U32At(w, 24) == sampleRate
  {
    ModSmall(sampleRate);
    ModSmall(2 * sampleRate);
    FmtFields(samples, sampleRate);
  }

  /** Two buffers that agree on every header field agree on the whole header. */
  lemma HeaderByFields(b: seq<byte>, c: seq<byte>)
    requires |b| >= HeaderSize && |c| >= HeaderSize
    requires b[0..4] == c[0..4] && b[4..8] == c[4..8] && b[8..12] == c[8..12]
    requires b[12..16] == c[12..16] && b[16..20] == c[16..20] && b[20..22] == c[20..22]
    requires b[22..24] == c[22..24] && b[24..28] == c[24..28] && b[28..32] == c[28..32]
    requires b[32..34] == c[32..34] && b[34..36] == c[34..36] && b[36..40] == c[36..40]
    requires b[40..44] == c[40..44]
    ensures b[..HeaderSize] == c[..HeaderSize]
  {
    forall j | 0 <= j < HeaderSize ensures b[j] == c[j] {
      if j < 4 { assert b[j] == b[0..4][j]; }
      else if j < 8 { assert b[j] == b[4..8][j - 4]; }
      else if j < 12 { assert b[j] == b[8..12][j - 8]; }
      else if j < 16 { assert b[j] == b[12..16][j - 12]; }
      else if j < 20 { assert b[j] == b[16..20][j - 16]; }
      else if j < 22 { assert b[j] == b[20..22][j - 20]; }
      else if j < 24 { assert b[j] == b[22..24][j - 22]; }
      else if j < 28 { assert b[j] == b[24..28][j - 24]; }
      else if j < 32 { assert b[j] == b[28..32][j - 28]; }
      else if j < 34 { assert b[j] == b[32..34][j - 32]; }
      else if j < 36 { assert b[j] == b[34..36][j - 34]; }
      else if j < 40 { assert b[j] == b[36..40][j - 36]; }
      else { assert b[j] == b[40..44][j - 40]; }
    }
  }

  /** The reader accepts only canonical containers: whatever it accepts is
      exactly what the encoder makes from the fields it returns. */
  lemma {:induction false} ParsedIsCanonical(b: seq<byte>)
    requires ParseWav(b).Some?
    ensures var w := ParseWav(b).value; WavSpec(w.samples, w.rate) == b
  {
    var w := ParseWav(b).value;
    assert TagsPresent(b) && SizesMatch(b) && PcmMono16(b);
    var p := b[HeaderSize..];
    assert w.samples == DecodeSamples(p);
    PayloadDecode(p);
    var n := |w.samples|;
    assert 2 * n == |b| - HeaderSize;
    var c := WavSpec(w.samples, w.rate);
    RiffLayout(n, w.rate);
    FmtLayout(n, w.rate);
    RateLayout(n, w.rate);
    DataLayout(n, w.rate);
    WavLayout(w.samples, w.rate);
    HeaderTags(w.samples, w.rate);
    LE32Canonical(b, 4);
    LE32Canonical(b, 16);
    LE32Canonical(b, 24);
    LE32Canonical(b, 28);
    LE32Canonical(b, 40);
    LE16Canonical(b, 20);
    LE16Canonical(b, 22);
    LE16Canonical(b, 32);
    LE16Canonical(b, 34);
    HeaderByFields(b, c);
    assert b == b[..HeaderSize] + p;
    assert c == c[..HeaderSize] + c[HeaderSize..];
  }

  /** writeString of "RIFF" stores the octets of RiffTag. */
  lemma RiffSpelled()
    ensures CharCodes("RIFF") == RiffTag
  {
  }

  /** writeString of "WAVE" stores the octets of WaveTag. */
  lemma WaveSpelled()
    ensures CharCodes("WAVE") == WaveTag
  {
  }

  /** writeString of "fmt " stores the octets of FmtTag. */
  lemma FmtSpelled()
    ensures CharCodes("fmt ") == FmtTag
  {
  }

  /** writeString of "data" stores the octets of DataTag. */
  lemma DataSpelled()
    ensures CharCodes("data") == DataTag
  {
  }


  /** Worked example, rate field: at 16000 Hz the octets 24..27 are 80 3E 00 00. */
  lemma ExampleRate()
    ensures var w := WavSpec([0, -1, 32767, -32768], 16000);
      |w| == 52 && w[24..28] == [0x80, 0x3E, 0x00, 0x00]
  {
    var w := WavSpec([0, -1, 32767, -32768], 16000);
    RateLayout(4, 16000);
    assert w[24..28] == Header(4, 16000)[24..28];
    assert LE32(16000) == LE16(16000) + LE16(0);
  }

  /** Worked example, samples: 0, -1, 32767 and -32768 are stored as
      00 00, FF FF, FF 7F and 00 80 after the header. */
  lemma ExampleSamples()
    ensures var w := WavSpec([0, -1, 32767, -32768], 16000);
      w[44..46] == [0x00, 0x00] && w[46..48] == [0xFF, 0xFF]
      && w[48..50] == [0xFF, 0x7F] && w[50..52] == [0x00, 0x80]
  {
    var s: seq<int16> := [0, -1, 32767, -32768];
    var w := WavSpec(s, 16000);
    assert w[44..46] == LE16(0) && w[46..48] == LE16(-1) by {
      SampleAt(s, 16000, 0);
      SampleAt(s, 16000, 1);
    }
    assert w[48..50] == LE16(32767) && w[50..52] == LE16(-32768) by {
      SampleAt(s, 16000, 2);
      SampleAt(s, 16000, 3);
    }
    assert LE16(-1) == [0xFF, 0xFF] && LE16(32767) == [0xFF, 0x7F] && LE16(-32768) == [0x00, 0x80];
  }

}
