# WAVE encoder of the Sandra chat client

The browser client `assets/sandra-client.js` gets speech from a
text-to-speech service as base64 text holding raw 16-bit PCM samples. It
plays them by turning them into a WAVE file. Two small functions do the byte
work:

- `base64ToArrayBuffer` copies the string `atob` returns into a `Uint8Array`,
  one character code per octet.
- `pcmToWav` allocates a zero-filled `ArrayBuffer` of `44 + dataSize` octets.
  It writes the canonical 44-byte PCM header through a `DataView`, using
  little-endian stores and the `writeString` helper for the four ASCII tags.
  Then it stores every sample as a little-endian signed 16-bit word.

The header follows the "WAVE Form Definition" of the Microsoft/IBM
*Multimedia Programming Interface and Data Specifications 1.0*. It has a
RIFF chunk descriptor ("RIFF", the size of the rest, "WAVE"), a 16-byte
"fmt " chunk (format tag 1 = PCM, mono, rate, byte rate, block alignment 2,
16 bits per sample) and the header of the "data" chunk ("data", dataSize).

The project has three modules:

- `Bytes` (`bytes.dfy`) holds the byte vocabulary. It has the `byte` and
  `int16` types and the truncations JavaScript applies when a number is
  stored into a buffer (ToUint8, ToUint16, ToUint32, written out as
  reductions modulo 2^8, 2^16 and 2^32). It has the little-endian encodings
  `LE16`/`LE32` with their readers, and `Overwrite`, which says what a run of
  byte stores does to a buffer.
- `WaveForm` (`wave_form.dfy`) is the pure specification of the container.
  `WavSpec(samples, rate)` is built from `Header` (itself made of
  `RiffDescriptor`, `FmtChunk` and `DataChunkHeader`) and `Payload`. It also
  has a reader, `ParseWav`. This reader is a specification device, not part
  of the client. It accepts exactly the canonical layout and returns the rate
  and the samples. The round trip is proved in both directions.
- `SandraClient` (`sandra_client.dfy`) is the imperative code. It has the
  copy loop of `base64ToArrayBuffer`, `writeString`, the `DataView` stores,
  and `pcmToWav` over a freshly allocated `array<byte>`. Every method is
  proved against the functions of `WaveForm`/`Bytes`:
  `PcmToWav` ensures `wav[..] == WavSpec(pcmData, sampleRate)`.

The header stores in `pcmToWav` are kept in the order the JavaScript client makes them. For the
proof they are grouped into four helper methods, one per run of adjacent
fields: `WriteRiffDescriptor`, `WriteFmtFormat`, `WriteFmtRates` and
`WriteDataChunkHeader`. Each helper stores one contiguous run of the header.
`OverwriteAdjacent` joins the runs.

16000 = 0x3E80, so `setUint32(24, 16000, true)` stores `80 3E 00 00` in
octets 24..27. `ExampleRate` proves it.

## Model

| member | source | states |
|---|---|---|
| `SandraClient.PcmToWav` | assets/sandra-client.js:211-224 | a new buffer whose octets are exactly `WavSpec(pcmData, sampleRate)`: the header for the N samples at the given rate, then the samples |
| `SandraClient.WriteHeader` | assets/sandra-client.js:215-220 | the thirteen header stores, in source order, leave the buffer equal to its old contents with `Header(n, sampleRate)` written over octets 0..43 and the rest untouched |
| `SandraClient.WriteRiffDescriptor` | assets/sandra-client.js:215-216 | storing "RIFF", `36 + dataSize` and "WAVE" writes `RiffDescriptor(n)` over octets 0..11 and nothing else |
| `SandraClient.WriteFmtFormat` | assets/sandra-client.js:216-217 | storing "fmt ", 16, 1 and the channel count writes the first half of the "fmt " chunk over octets 12..23 and nothing else |
| `SandraClient.WriteFmtRates` | assets/sandra-client.js:218-219 | storing the rate, byte rate, block alignment and sample width writes `FmtRates(sampleRate)` over octets 24..35 and nothing else |
| `SandraClient.WriteDataChunkHeader` | assets/sandra-client.js:220 | storing "data" and dataSize writes `DataChunkHeader(n)` over octets 36..43 and nothing else |
| `SandraClient.StoreSample` | assets/sandra-client.js:221-222 | storing sample i at offset 44 + 2i advances the filled state from i to i + 1 samples (the loop invariant of the sample loop) |
| `SandraClient.WriteString` | assets/sandra-client.js:225-227 | the buffer afterwards is the old one with the ToUint8 character codes of the string written from `offset` on, and nothing else changed |
| `SandraClient.SetUint16` | assets/sandra-client.js:217 | `DataView.setUint16(off, v, true)`: writes `LE16(v)` (v modulo 2^16, low octet first) at off, nothing else |
| `SandraClient.SetInt16` | assets/sandra-client.js:222 | `DataView.setInt16(off, v, true)` on a 16-bit sample: writes the same two octets as setUint16 |
| `SandraClient.SetUint32` | assets/sandra-client.js:215 | `DataView.setUint32(off, v, true)`: writes `LE32(v)` (v modulo 2^32, low octet first) at off, nothing else |
| `SandraClient.Base64ToArrayBuffer` | assets/sandra-client.js:205-210 | a new array of the string's length whose octet i is character code i under ToUint8 |
| `Bytes.ToUint8` | assets/sandra-client.js:208 | the octet a character code becomes in a Uint8Array or setUint8 store: in 0..255 and congruent to the code modulo 256 |
| `Bytes.CharCodes` | assets/sandra-client.js:226 | the octets writeString and the copy loop store for a string: one per character, as many as the string has |
| `Bytes.LE16` | assets/sandra-client.js:217-222 | the octets setUint16/setInt16 write: exactly two; what they hold (v mod 2^16, low octet first) is stated by `LE16Decode` and `LE16Canonical` |
| `Bytes.LE32` | assets/sandra-client.js:215-220 | the octets setUint32 writes: exactly four; what they hold (v mod 2^32, low octet first) is stated by `LE32Decode` and `LE32Canonical` |
| `Bytes.Zeros` | assets/sandra-client.js:214 | the contents of a new ArrayBuffer of n octets: n octets |
| `Bytes.CharCodesAt` | assets/sandra-client.js:208 | octet i of the copied codes is character code i modulo 256 (the Uint8Array store) |
| `Bytes.CharCodesExact` | assets/sandra-client.js:206-208 | for a binary string as atob returns (every code below 256) the copy is exact: octet i equals character code i |
| `Bytes.I16At` | assets/sandra-client.js:222 | the signed reading of two octets agrees with the unsigned one modulo 2^16 |
| `Bytes.LE16Decode` | assets/sandra-client.js:217 | reading back the two octets setUint16 writes gives the value modulo 2^16 |
| `Bytes.LE32Decode` | assets/sandra-client.js:215 | reading back the four octets setUint32 writes gives the value modulo 2^32 |
| `Bytes.ReadLE16` | assets/sandra-client.js:217-219 | a 16-bit field holding `LE16(v)` anywhere in a buffer reads back as v modulo 2^16 |
| `Bytes.ReadLE32` | assets/sandra-client.js:215-220 | a 32-bit field holding `LE32(v)` anywhere in a buffer reads back as v modulo 2^32 |
| `Bytes.Int16RoundTrip` | assets/sandra-client.js:222 | every 16-bit sample written little-endian reads back, signed, as itself |
| `Bytes.LE16Canonical` | assets/sandra-client.js:222 | any two octets are the LE16 encoding of their unsigned and of their signed reading (the encoding is onto) |
| `Bytes.LE32Canonical` | assets/sandra-client.js:215-220 | any four octets are the LE32 encoding of their unsigned reading |
| `Bytes.OverwriteAt` | assets/sandra-client.js:226 | a run of stores changes exactly octets from off on, as many as bs holds, to bs, and keeps every other octet |
| `Bytes.OverwriteAdjacent` | assets/sandra-client.js:215-220 | two stores side by side have the effect of one store of their concatenation |
| `Bytes.OverwriteZeros` | assets/sandra-client.js:214 | storing at the end of a filled prefix of a zero-filled buffer extends the prefix and shortens the zero tail |
| `WaveForm.ByteRate` | assets/sandra-client.js:213 | the byte rate, sampleRate * numChannels * bytesPerSample, is twice the rate |
| `WaveForm.Header` | assets/sandra-client.js:215-220 | the header the stores leave in front of the samples is 44 octets long; its fields are stated by the four layout lemmas below |
| `WaveForm.RiffDescriptor` | assets/sandra-client.js:215-216 | the RIFF chunk descriptor is 12 octets long |
| `WaveForm.FmtFormat` | assets/sandra-client.js:216-217 | the tag, chunk size, format tag and channel count of the "fmt " chunk take 12 octets |
| `WaveForm.FmtRates` | assets/sandra-client.js:218-219 | the rate, byte rate, block alignment and sample width take 12 octets |
| `WaveForm.FmtChunk` | assets/sandra-client.js:216-219 | the "fmt " chunk is 24 octets long |
| `WaveForm.DataChunkHeader` | assets/sandra-client.js:220 | the header of the "data" chunk is 8 octets long |
| `WaveForm.Payload` | assets/sandra-client.js:221-222 | the samples as little-endian words in order, 2 octets per sample |
| `WaveForm.WavSpec` | assets/sandra-client.js:214-222 | the container has length 44 + 2N, its first 44 octets are `Header` and the rest is `Payload` |
| `WaveForm.DecodeSamples` | assets/sandra-client.js:222 | the reader's decoding of an even-length payload yields half as many samples as octets |
| `WaveForm.RiffLayout` | assets/sandra-client.js:215-216 | header octets 0..3 are "RIFF", 4..7 are `LE32(36 + 2N)`, 8..11 are "WAVE" |
| `WaveForm.FmtLayout` | assets/sandra-client.js:216-217 | header octets 12..15 are "fmt ", 16..19 `LE32(16)`, 20..21 `LE16(1)`, 22..23 `LE16(1)` |
| `WaveForm.RateLayout` | assets/sandra-client.js:218-219 | header octets 24..27 are `LE32(rate)`, 28..31 `LE32(2 * rate)`, 32..33 `LE16(2)`, 34..35 `LE16(16)` |
| `WaveForm.DataLayout` | assets/sandra-client.js:220 | header octets 36..39 are "data" and 40..43 `LE32(2N)` |
| `WaveForm.HeaderTags` | assets/sandra-client.js:215-220 | the container holds the ASCII octets of "RIFF", "WAVE", "fmt " and "data" at 0, 8, 12 and 36 |
| `WaveForm.WavLayout` | assets/sandra-client.js:215-220 | every numeric header field of the container holds the encoding the code stores there |
| `WaveForm.HeaderSizes` | assets/sandra-client.js:215-220 | the RIFF size reads as (36 + 2N) mod 2^32 and the data size as 2N mod 2^32 |
| `WaveForm.FmtFields` | assets/sandra-client.js:216-219 | chunk size 16, PCM 1, mono 1, rate mod 2^32, byte rate (2 * rate) mod 2^32, block alignment 2, 16 bits per sample |
| `WaveForm.PayloadAt` | assets/sandra-client.js:221-222 | payload octets 2i, 2i + 1 are the little-endian encoding of sample i |
| `WaveForm.SampleAt` | assets/sandra-client.js:221-222 | sample i sits at octets 44 + 2i (low) and 45 + 2i (high), and a signed read there returns it |
| `WaveForm.EmptyContainer` | assets/sandra-client.js:214-220 | with no samples the container is the 44-byte header alone, declaring sizes 36 and 0 |
| `WaveForm.DecodePayload` | assets/sandra-client.js:221-222 | decoding the payload of any samples returns those samples |
| `WaveForm.PayloadDecode` | assets/sandra-client.js:221-222 | every even-length run of octets is the payload of what it decodes to |
| `WaveForm.ParseWavSpec` | assets/sandra-client.js:211-224 | when no size or rate field wraps, reading the container back yields exactly the rate and the samples it was built from |
| `WaveForm.AcceptedFields` | assets/sandra-client.js:215-220 | when no field wraps, the header passes every check of the reader and its rate field holds the rate |
| `WaveForm.AcceptedTags` | assets/sandra-client.js:215-220 | the container always carries the four tags where the reader expects them |
| `WaveForm.AcceptedSizes` | assets/sandra-client.js:215-220 | when 36 + 2N fits in 32 bits, both size fields match the container's length |
| `WaveForm.AcceptedFmt` | assets/sandra-client.js:216-219 | when twice the rate fits in 32 bits, the fmt fields describe 16-bit mono PCM with byte rate twice the rate |
| `WaveForm.HeaderByFields` | assets/sandra-client.js:215-220 | the thirteen fields cover the 44 header octets: buffers agreeing on every field agree on the whole header |
| `WaveForm.ParsedIsCanonical` | assets/sandra-client.js:211-224 | the converse round trip: every buffer the reader accepts is exactly what the encoder makes from the rate and samples read |
| `WaveForm.RiffSpelled` | assets/sandra-client.js:215 | writeString of "RIFF" stores 52 49 46 46 |
| `WaveForm.WaveSpelled` | assets/sandra-client.js:216 | writeString of "WAVE" stores 57 41 56 45 |
| `WaveForm.FmtSpelled` | assets/sandra-client.js:216 | writeString of "fmt " stores 66 6D 74 20 |
| `WaveForm.DataSpelled` | assets/sandra-client.js:220 | writeString of "data" stores 64 61 74 61 |
| `WaveForm.ExampleRate` | assets/sandra-client.js:196 | four samples at 16000 Hz give a 52-octet container whose rate field is 80 3E 00 00 |
| `WaveForm.ExampleSamples` | assets/sandra-client.js:221-222 | the samples 0, -1, 32767, -32768 are stored as 00 00, FF FF, FF 7F, 00 80 |

## Left out

- `atob`: base64 decoding is left out. `Base64ToArrayBuffer` takes the decoded binary string as its input.
- `new Int16Array(pcmData)` at the call site: reinterpreting the decoded octets as samples in the host's byte order is left out. `PcmToWav` takes the samples as a sequence of `int16`.
- `PcmToWav` returns the filled byte array. pcmToWav wraps the `DataView` in a `Blob` of type `audio/wav`, and the model does not show that wrapping.
- `Base64ToArrayBuffer` returns the `Uint8Array`'s contents, not its underlying `ArrayBuffer` object.
- `PcmToWav`: the sample rate is a mathematical integer. A fractional or non-finite JavaScript number is not modelled, because ToUint32 of those involves floating point. Wrap-around modulo 2^32 of the rate, the byte rate and both size fields is modelled.
- `WriteString`, `SetUint16`, `SetInt16`, `SetUint32`: a `RangeError` from a store past the end of the view is not modelled. pcmToWav never makes such a store, so each of the four states the bound as a precondition instead.
- `PcmToWav`: the allocation `new ArrayBuffer(44 + dataSize)` always succeeds in the model. The `RangeError` JavaScript raises for a length it cannot allocate is not modelled.
- `WriteString`: a Dafny `char` is one Unicode scalar value. JavaScript's `charCodeAt` counts UTF-16 code units, so a string with a character outside the Basic Multilingual Plane has a different length there. Every string pcmToWav passes is ASCII.
- `SetUint16`: the `DataView` stores are modelled only little-endian, the only form pcmToWav uses.
- Playback (`URL.createObjectURL`, `Audio`, `AudioContext`), the `fetch` calls to the speech and chat services, speech recognition, the DOM and UI updates, and the session and conversation state: these are I/O and browser APIs.
- The rate of 16000 Hz that the caller passes is a call-site choice. The rate is a parameter of the model.
