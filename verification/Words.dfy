/** The two integer widths that cross the wire: bytes, and the 32-bit little-endian words
    that `uint32_t` and `size_t` are on the x86 target. */
module Words {
  const BYTE_BOUND := 0x100
  const WORD_BOUND := 0x1_0000_0000

  type Byte = b: int | 0 <= b < BYTE_BOUND
  type Word = w: int | 0 <= w < WORD_BOUND

  /** The image of a word in memory, least significant byte first. */
  function Encode(w: Word): (bytes: seq<Byte>)
    ensures |bytes| == 4
  {
    [w % 0x100, w / 0x100 % 0x100, w / 0x1_0000 % 0x100, w / 0x100_0000]
  }

  function Decode(bytes: seq<Byte>): Word
    requires |bytes| == 4
  {
    var b0: int, b1: int, b2: int, b3: int := bytes[0], bytes[1], bytes[2], bytes[3];
    b0 + 0x100 * b1 + 0x1_0000 * b2 + 0x100_0000 * b3
  }

  lemma Peel(w: int, q: int, b: Byte)
    requires w == 0x100 * q + b
    ensures w / 0x100 == q && w % 0x100 == b
  {
  }

  lemma DivideTwice(w: nat)
    ensures w / 0x1_0000 == w / 0x100 / 0x100 && w / 0x100_0000 == w / 0x100 / 0x100 / 0x100
  {
  }

  /** The byte order: one more byte at the low end of a word is one more in front of its image. */
  lemma LowByteFirst(q: Word, b: Byte)
    requires q < 0x100_0000
    ensures Encode(0x100 * q + b) == [b] + Encode(q)[..3] && Encode(q)[3] == 0
  {
    var w := 0x100 * q + b;
    Peel(w, q, b);
    DivideTwice(w);
    DivideTwice(q);
  }

  lemma DecodeEncode(w: Word)
    ensures Decode(Encode(w)) == w
  {
    var q1, q2 := w / 0x100, w / 0x1_0000;
    assert q1 / 0x100 == q2 && q2 / 0x100 == w / 0x100_0000;
  }

  lemma EncodeDecode(bytes: seq<Byte>)
    requires |bytes| == 4
    ensures Encode(Decode(bytes)) == bytes
  {
    var w: int := Decode(bytes);
    var b0: int, b1: int, b2: int, b3: int := bytes[0], bytes[1], bytes[2], bytes[3];
    var q1 := b1 + 0x100 * b2 + 0x1_0000 * b3;
    var q2 := b2 + 0x100 * b3;
    Peel(w, q1, b0);
    Peel(q1, q2, b1);
    Peel(q2, b3, b2);
    DivideTwice(w);
  }
}
