/** Byte-level vocabulary shared by the encoder: octets, 16-bit samples, the
    truncating conversions that JavaScript applies when a number is stored into
    a byte buffer, little-endian field layouts and their readers. */
module Bytes {

  /** One octet of an ArrayBuffer. */
  newtype byte = x: int | 0 <= x < 0x100

  /** One element of an Int16Array: a signed 16-bit sample. */
  newtype int16 = x: int | -0x8000 <= x < 0x8000

  const TWO16: int := 0x1_0000
  const TWO32: int := 0x1_0000_0000

  /** ToUint8: the octet a number becomes when it is stored into a Uint8Array
      element or written with DataView.setUint8 (reduction modulo 256). */
  function ToUint8(v: int): (r: byte)
    ensures (v - r as int) % 0x100 == 0
  {
    (v % 0x100) as byte
  }

  /** The octets of a string's character codes, each reduced by ToUint8. */
  function CharCodes(s: string): (r: seq<byte>)
    ensures |r| == |s|
  {
    seq(|s|, i requires 0 <= i < |s| => ToUint8(s[i] as int))
  }

  /** Octet i of CharCodes(s) is character code i reduced modulo 256. */
  lemma CharCodesAt(s: string)
    ensures forall i | 0 <= i < |s| :: CharCodes(s)[i] as int == s[i] as int % 0x100
  {
  }

  /** A string all of whose character codes fit in one octet (what atob
      returns, and every ASCII tag) is copied code for code. */
  lemma CharCodesExact(s: string)
    requires forall i | 0 <= i < |s| :: s[i] as int < 0x100
    ensures forall i | 0 <= i < |s| :: CharCodes(s)[i] as int == s[i] as int
  {
    CharCodesAt(s);
  }

  /** Unsigned little-endian 16-bit value of s[off], s[off+1]. */
  function U16At(s: seq<byte>, off: nat): (v: int)
    requires off + 2 <= |s|
    ensures 0 <= v < TWO16
  {
    s[off] as int + 0x100 * s[off + 1] as int
  }

  /** Two's-complement reading of the same two octets (DataView.getInt16, little-endian). */
  function I16At(s: seq<byte>, off: nat): (v: int16)
    requires off + 2 <= |s|
    ensures v as int % TWO16 == U16At(s, off)
  {
    var u := U16At(s, off);
    if u < 0x8000 then u as int16 else (u - TWO16) as int16
  }

  /** Unsigned little-endian 32-bit value of s[off..off+4]. */
  function U32At(s: seq<byte>, off: nat): (v: int)
    requires off + 4 <= |s|
    ensures 0 <= v < TWO32
  {
    U16At(s, off) + TWO16 * U16At(s, off + 2)
  }

  /** The two octets DataView.setUint16(off, v, true) and setInt16(off, v, true)
      store: v is first reduced modulo 2^16 (ToUint16 / ToInt16 agree on
      the bit pattern), then written low octet first. */
  function LE16(v: int): (r: seq<byte>)
    ensures |r| == 2
  {
    var u := v % TWO16;
    [(u % 0x100) as byte, (u / 0x100) as byte]
  }

  /** The four octets DataView.setUint32(off, v, true) stores: v is reduced
      modulo 2^32 (ToUint32), then written low octet first. */
  function LE32(v: int): (r: seq<byte>)
    ensures |r| == 4
  {
    var u := v % TWO32;
    LE16(u) + LE16(u / TWO16)
  }

  /** Reading back what setUint16 wrote gives the value modulo 2^16. */
  lemma LE16Decode(v: int)
    ensures U16At(LE16(v), 0) == v % TWO16
  {
  }

  /** Reading back what setUint32 wrote gives the value modulo 2^32. */
  lemma LE32Decode(v: int)
    ensures U32At(LE32(v), 0) == v % TWO32
  {
    var u := v % TWO32;
    LE16Decode(u);
    LE16Decode(u / TWO16);
    assert LE32(v)[..2] == LE16(u) && LE32(v)[2..] == LE16(u / TWO16);
    assert U32At(LE32(v), 0) == U16At(LE16(u), 0) + TWO16 * U16At(LE16(u / TWO16), 0);
  }

  /** A field holding LE16(v) anywhere in a buffer reads back as v modulo 2^16. */
  lemma ReadLE16(s: seq<byte>, off: nat, v: int)
    requires off + 2 <= |s| && s[off..off + 2] == LE16(v)
    ensures U16At(s, off) == v % TWO16
  {
    LE16Decode(v);
    assert U16At(s, off) == U16At(s[off..off + 2], 0);
  }

  /** A field holding LE32(v) anywhere in a buffer reads back as v modulo 2^32. */
  lemma ReadLE32(s: seq<byte>, off: nat, v: int)
    requires off + 4 <= |s| && s[off..off + 4] == LE32(v)
    ensures U32At(s, off) == v % TWO32
  {
    LE32Decode(v);
    assert U32At(s, off) == U32At(s[off..off + 4], 0);
  }

  /** A value already within 32 bits is left alone by ToUint32. */
  lemma ModSmall(x: int)
    requires 0 <= x < TWO32
    ensures x % TWO32 == x
  {
  }

  /** Every 16-bit sample survives a little-endian write followed by a signed read. */
  lemma Int16RoundTrip(x: int16)
    ensures I16At(LE16(x as int), 0) == x
  {
    LE16Decode(x as int);
  }

  /** Any two octets are the LE16 encoding of both their unsigned and their
      signed reading: the encoding is onto. */
  lemma LE16Canonical(s: seq<byte>, off: nat)
    requires off + 2 <= |s|
    ensures LE16(U16At(s, off)) == s[off..off + 2]
    ensures LE16(I16At(s, off) as int) == s[off..off + 2]
  {
    var u := U16At(s, off);
    assert u % 0x100 == s[off] as int && u / 0x100 == s[off + 1] as int;
    assert u % TWO16 == u;
    assert (I16At(s, off) as int) % TWO16 == u;
  }

  /** Any four octets are the LE32 encoding of their unsigned reading. */
  lemma LE32Canonical(s: seq<byte>, off: nat)
    requires off + 4 <= |s|
    ensures LE32(U32At(s, off)) == s[off..off + 4]
  {
    var lo, hi := U16At(s, off), U16At(s, off + 2);
    var u := U32At(s, off);
    assert u % TWO16 == lo && u / TWO16 == hi;
    LE16Canonical(s, off);
    LE16Canonical(s, off + 2);
    assert LE32(u) == LE16(lo) + LE16(hi);
  }

  /** s with the octets bs written over it from position off on; what a run
      of byte stores into a buffer does to its contents. */
  function Overwrite(s: seq<byte>, off: nat, bs: seq<byte>): (r: seq<byte>)
    requires off + |bs| <= |s|
    ensures |r| == |s|
  {
    s[..off] + bs + s[off + |bs|..]
  }

  /** Overwrite changes exactly the octets off .. off + |bs| - 1, to bs. */
  lemma OverwriteAt(s: seq<byte>, off: nat, bs: seq<byte>)
    requires off + |bs| <= |s|
    ensures forall j | 0 <= j < |s| ::
      Overwrite(s, off, bs)[j] == if off <= j < off + |bs| then bs[j - off] else s[j]
  {
  }

  /** Two stores side by side act as one store of their concatenation. */
  lemma OverwriteAdjacent(s: seq<byte>, off: nat, a: seq<byte>, b: seq<byte>)
    requires off + |a| + |b| <= |s|
    ensures Overwrite(Overwrite(s, off, a), off + |a|, b) == Overwrite(s, off, a + b)
  {
    var t := Overwrite(s, off, a);
    assert t[..off + |a|] == s[..off] + a;
    assert t[off + |a| + |b|..] == s[off + |a| + |b|..];
  }

  /** A zero-filled run of octets, what a new ArrayBuffer holds. */
  function Zeros(n: nat): (r: seq<byte>)
    ensures |r| == n
  {
    seq(n, _ => 0)
  }

  /** Writing bs at the end of a filled prefix h of a zero-filled buffer
      extends the prefix by bs and shortens the zero tail accordingly. */
  lemma OverwriteZeros(h: seq<byte>, bs: seq<byte>, m: nat)
    requires |bs| <= m
    ensures Overwrite(h + Zeros(m), |h|, bs) == (h + bs) + Zeros(m - |bs|)
  {
    var l := Overwrite(h + Zeros(m), |h|, bs);
    var r := (h + bs) + Zeros(m - |bs|);
    OverwriteAt(h + Zeros(m), |h|, bs);
    assert |l| == |r|;
    forall j | 0 <= j < |l| ensures l[j] == r[j] {
      if j < |h| {
      } else if j < |h| + |bs| {
      } else {
      }
    }
  }
}
