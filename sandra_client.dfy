/** The encoder functions of the chat client: the byte copy that turns atob's
    output into a byte buffer, and pcmToWav with its writeString helper, which
    fill a freshly allocated, zero-initialised buffer through DataView stores. */
module SandraClient {
  import opened Bytes
  import opened WaveForm

  /** DataView.setUint8 on each character code of s, from offset on. */
  method WriteString(view: array<byte>, offset: nat, s: string)
    requires offset + |s| <= view.Length
    modifies view
    ensures view[..] == Overwrite(old(view[..]), offset, CharCodes(s))
  {
    for i := 0 to |s|
      invariant forall j | 0 <= j < view.Length ::
        view[j] == if offset <= j < offset + i then CharCodes(s)[j - offset] else old(view[j])
    {
      view[offset + i] := ToUint8(s[i] as int);
    }
    OverwriteAt(old(view[..]), offset, CharCodes(s));
  }

  /** DataView.setUint16(offset, v, true). */
  method SetUint16(view: array<byte>, offset: nat, v: int)
    requires offset + 2 <= view.Length
    modifies view
    ensures view[..] == Overwrite(old(view[..]), offset, LE16(v))
  {
    var bs := LE16(v);
    view[offset] := bs[0];
    view[offset + 1] := bs[1];
  }

  /** DataView.setInt16(offset, v, true): ToInt16 and ToUint16 agree modulo
      2^16, so the octets are those of setUint16. */
  method SetInt16(view: array<byte>, offset: nat, v: int16)
    requires offset + 2 <= view.Length
    modifies view
    ensures view[..] == Overwrite(old(view[..]), offset, LE16(v as int))
  {
    SetUint16(view, offset, v as int);
  }

  /** DataView.setUint32(offset, v, true). */
  method SetUint32(view: array<byte>, offset: nat, v: int)
    requires offset + 4 <= view.Length
    modifies view
    ensures view[..] == Overwrite(old(view[..]), offset, LE32(v))
  {
    var bs := LE32(v);
    view[offset] := bs[0];
    view[offset + 1] := bs[1];
    view[offset + 2] := bs[2];
    view[offset + 3] := bs[3];
  }

  /** The copy loop of base64ToArrayBuffer, given the string atob returned:
      a new byte array of the same length holding each character code. */
  method Base64ToArrayBuffer(binaryString: string) returns (bytes: array<byte>)
    ensures fresh(bytes)
    ensures bytes[..] == CharCodes(binaryString)
  {
    var len := |binaryString|;
    bytes := new byte[len](_ => 0);
    for i := 0 to len
      invariant forall j | 0 <= j < i :: bytes[j] == CharCodes(binaryString)[j]
    {
      bytes[i] := ToUint8(binaryString[i] as int);
    }
  }

  /** pcmToWav: a new buffer holding the 44-byte header and the samples. */
  method PcmToWav(pcmData: seq<int16>, sampleRate: int) returns (wav: array<byte>)
    ensures fresh(wav)
    ensures wav[..] == WavSpec(pcmData, sampleRate)
  {
    var numChannels := 1;
    var sampleBitLength := 16;
    var bytesPerSample := sampleBitLength / 8;
    var byteRate := sampleRate * numChannels * bytesPerSample;
    var blockAlign := numChannels * bytesPerSample;
    // The byteLength of an Int16Array: two octets per element.
    var dataSize := 2 * |pcmData|;
    assert bytesPerSample == BytesPerSample && byteRate == ByteRate(sampleRate);
    wav := new byte[HeaderSize + dataSize](_ => 0);
    ghost var hd := Header(|pcmData|, sampleRate);
    assert wav[..] == [] + Zeros(wav.Length);
    WriteHeader(wav, |pcmData|, sampleRate, numChannels, byteRate, blockAlign, sampleBitLength, dataSize);
    OverwriteZeros([], hd, wav.Length);
    assert [] + hd == hd + Payload(pcmData[..0]);

    var offset := HeaderSize;
    for i := 0 to |pcmData|
      invariant offset == HeaderSize + 2 * i
      invariant wav[..] == Filled(hd, pcmData, i)
    {
      SetInt16(wav, offset, pcmData[i]);
      StoreSample(hd, pcmData, i);
      offset := offset + 2;
    }
    assert pcmData[..|pcmData|] == pcmData;
    assert wav[..] == hd + Payload(pcmData) + [];
  }

  /** The buffer once the header hd and the first i samples have been stored. */
  ghost function Filled(hd: seq<byte>, pcmData: seq<int16>, i: nat): (r: seq<byte>)
    requires i <= |pcmData|
    ensures |r| == |hd| + 2 * |pcmData|
  {
    hd + Payload(pcmData[..i]) + Zeros(2 * (|pcmData| - i))
  }

  /** Storing sample i at its offset advances the filled state by one sample. */
  lemma StoreSample(hd: seq<byte>, pcmData: seq<int16>, i: nat)
    requires i < |pcmData|
    ensures Overwrite(Filled(hd, pcmData, i), |hd| + 2 * i, LE16(pcmData[i] as int))
      == Filled(hd, pcmData, i + 1)
  {
    var done := hd + Payload(pcmData[..i]);
    OverwriteZeros(done, LE16(pcmData[i] as int), 2 * (|pcmData| - i));
    assert pcmData[..i + 1][..i] == pcmData[..i];
    assert Payload(pcmData[..i + 1]) == Payload(pcmData[..i]) + LE16(pcmData[i] as int);
    assert done + LE16(pcmData[i] as int) == hd + Payload(pcmData[..i + 1]);
  }

  /** The header stores of pcmToWav, in the order pcmToWav makes them:
      together they store Header at the front of the buffer. */
  method WriteHeader(wav: array<byte>, n: nat, sampleRate: int, numChannels: int, byteRate: int,
                     blockAlign: int, sampleBitLength: int, dataSize: int)
    requires numChannels == NumChannels && byteRate == ByteRate(sampleRate) && blockAlign == BlockAlign
    requires sampleBitLength == SampleBitLength && dataSize == n * BytesPerSample
    requires HeaderSize <= wav.Length
    modifies wav
    ensures wav[..] == Overwrite(old(wav[..]), 0, Header(n, sampleRate))
  {
    ghost var s0 := wav[..];
    WriteRiffDescriptor(wav, n, dataSize);
    ghost var s1 := wav[..];
    WriteFmtFormat(wav, numChannels);
    WriteFmtRates(wav, sampleRate, byteRate, blockAlign, sampleBitLength);
    OverwriteAdjacent(s1, 12, FmtFormat(), FmtRates(sampleRate));
    OverwriteAdjacent(s0, 0, RiffDescriptor(n), FmtChunk(sampleRate));
    WriteDataChunkHeader(wav, n, dataSize);
    OverwriteAdjacent(s0, 0, RiffDescriptor(n) + FmtChunk(sampleRate), DataChunkHeader(n));
  }

  /** The stores of the RIFF chunk descriptor: "RIFF", 36 + dataSize, "WAVE". */
  method WriteRiffDescriptor(wav: array<byte>, n: nat, dataSize: int)
    requires dataSize == n * BytesPerSample && 12 <= wav.Length
    modifies wav
    ensures wav[..] == Overwrite(old(wav[..]), 0, RiffDescriptor(n))
  {
    ghost var s0 := wav[..];
    RiffSpelled();
    WriteString(wav, 0, "RIFF");
    SetUint32(wav, 4, 36 + dataSize);
    OverwriteAdjacent(s0, 0, RiffTag, LE32(36 + dataSize));
    WaveSpelled();
    WriteString(wav, 8, "WAVE");
    OverwriteAdjacent(s0, 0, RiffTag + LE32(36 + dataSize), WaveTag);
  }

  /** The first stores of the "fmt " chunk: tag, chunk size 16, PCM format tag
      1 and the channel count. */
  method WriteFmtFormat(wav: array<byte>, numChannels: int)
    requires numChannels == NumChannels && 24 <= wav.Length
    modifies wav
    ensures wav[..] == Overwrite(old(wav[..]), 12, FmtFormat())
  {
    ghost var s0 := wav[..];
    FmtSpelled();
    WriteString(wav, 12, "fmt ");
    SetUint32(wav, 16, 16);
    OverwriteAdjacent(s0, 12, FmtTag, LE32(16));
    SetUint16(wav, 20, 1);
    OverwriteAdjacent(s0, 12, FmtTag + LE32(16), LE16(1));
    SetUint16(wav, 22, numChannels);
    OverwriteAdjacent(s0, 12, FmtTag + LE32(16) + LE16(1), LE16(numChannels));
  }

  /** The remaining stores of the "fmt " chunk: rate, byte rate, block
      alignment and bits per sample. */
  method WriteFmtRates(wav: array<byte>, sampleRate: int, byteRate: int, blockAlign: int, sampleBitLength: int)
    requires byteRate == ByteRate(sampleRate) && blockAlign == BlockAlign && sampleBitLength == SampleBitLength
    requires 36 <= wav.Length
    modifies wav
    ensures wav[..] == Overwrite(old(wav[..]), 24, FmtRates(sampleRate))
  {
    ghost var s0 := wav[..];
    SetUint32(wav, 24, sampleRate);
    SetUint32(wav, 28, byteRate);
    OverwriteAdjacent(s0, 24, LE32(sampleRate), LE32(byteRate));
    SetUint16(wav, 32, blockAlign);
    OverwriteAdjacent(s0, 24, LE32(sampleRate) + LE32(byteRate), LE16(blockAlign));
    SetUint16(wav, 34, sampleBitLength);
    OverwriteAdjacent(s0, 24, LE32(sampleRate) + LE32(byteRate) + LE16(blockAlign), LE16(sampleBitLength));
  }

  /** The stores of the "data" chunk header: tag and dataSize. */
  method WriteDataChunkHeader(wav: array<byte>, n: nat, dataSize: int)
    requires dataSize == n * BytesPerSample && HeaderSize <= wav.Length
    modifies wav
    ensures wav[..] == Overwrite(old(wav[..]), 36, DataChunkHeader(n))
  {
    ghost var s0 := wav[..];
    DataSpelled();
    WriteString(wav, 36, "data");
    SetUint32(wav, 40, dataSize);
    OverwriteAdjacent(s0, 36, DataTag, LE32(dataSize));
  }
}
