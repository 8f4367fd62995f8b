/** NetworkManager/connection.h, the 64-bit challenge and response. */
module Handshake {
  import opened Words

  const MASK_IN: bv64 := 0xDEADBEEFC0DECAFE
  const MASK_OUT: bv64 := 0xC0DEFACE12345678
  const HIGH_NIBBLES: bv64 := 0xF0F0F0F0F0F0F0F0
  const LOW_NIBBLES: bv64 := 0x0F0F0F0F0F0F0F0F

  function NibbleSwap(x: bv64): bv64 {
    ((x & HIGH_NIBBLES) >> 4) | ((x & LOW_NIBBLES) << 4)
  }

  function Scramble(x: bv64): bv64 {
    NibbleSwap(x ^ MASK_IN) ^ MASK_OUT
  }

  function Unscramble(y: bv64): bv64 {
    NibbleSwap(y ^ MASK_OUT) ^ MASK_IN
  }

  lemma NibbleSwapIsInvolution(x: bv64)
    ensures NibbleSwap(NibbleSwap(x)) == x
  {
  }

  /** Which function it is: where it takes the challenge 0, and that from there on it trades the nibbles of
      every byte. */
  lemma ScrambleTradesNibbles(x: bv64)
    ensures Scramble(0) == 0x2D04_1130_1ED9_FA97
    ensures Scramble(x) ^ Scramble(0) == ((x & 0x0F0F_0F0F_0F0F_0F0F) << 4) | ((x >> 4) & 0x0F0F_0F0F_0F0F_0F0F)
  {
  }

  lemma MaskTwice(x: bv64, m: bv64)
    ensures (x ^ m) ^ m == x
  {
  }

  /** `scramble` is a bijection on 64-bit words. */
  lemma ScrambleIsBijection(x: bv64, y: bv64)
    ensures Unscramble(Scramble(x)) == x
    ensures Scramble(Unscramble(y)) == y
  {
    MaskTwice(NibbleSwap(x ^ MASK_IN), MASK_OUT);
    NibbleSwapIsInvolution(x ^ MASK_IN);
    MaskTwice(x, MASK_IN);
    MaskTwice(NibbleSwap(y ^ MASK_OUT), MASK_IN);
    NibbleSwapIsInvolution(y ^ MASK_OUT);
    MaskTwice(y, MASK_OUT);
  }

  /** The server's verdict on a response to its challenge. */
  predicate Accepts(challenge: bv64, response: bv64) {
    response == Scramble(challenge)
  }

  /** A client that follows the protocol is validated for every challenge, and a given response is
      accepted for exactly one challenge. */
  lemma ResponseFitsOneChallenge(challenge: bv64, response: bv64)
    ensures Accepts(challenge, Scramble(challenge))
    ensures Accepts(challenge, response) <==> challenge == Unscramble(response)
  {
    ScrambleIsBijection(challenge, response);
  }

  // ---------- the eight bytes that cross the wire ----------

  function LowByte(x: bv64): Byte {
    ((x & 0xFF) as bv8) as int
  }

  function LowBytes(x: bv64, n: nat): (bytes: seq<Byte>)
    ensures |bytes| == n
  {
    if n == 0 then [] else [LowByte(x)] + LowBytes(x >> 8, n - 1)
  }

  /** The image of a 64-bit word in memory, least significant byte first. */
  function Image(x: bv64): (bytes: seq<Byte>)
    ensures |bytes| == 8
  {
    LowBytes(x, 8)
  }

  lemma SmallInjective(x: bv8, y: bv8)
    requires x as int == y as int
    ensures x == y
  {
    assert x as int as bv8 == y as int as bv8;
  }

  lemma LowByteInjective(x: bv64, y: bv64)
    requires LowByte(x) == LowByte(y)
    ensures x & 0xFF == y & 0xFF
  {
    SmallInjective((x & 0xFF) as bv8, (y & 0xFF) as bv8);
  }

  lemma LowAndRest(x: bv64, y: bv64)
    requires x & 0xFF == y & 0xFF && x >> 8 == y >> 8
    ensures x == y
  {
  }

  /** What is left of `x` above its `n` lowest bytes. */
  function Above(x: bv64, n: nat): bv64 {
    if n == 0 then x else Above(x >> 8, n - 1)
  }

  /** Byte `k` of the image is the lowest one of what is above the first `k` bytes. */
  lemma {:induction false} ByteOfLowBytes(x: bv64, n: nat, k: nat)
    requires k < n
    ensures LowBytes(x, n)[k] == LowByte(Above(x, k))
  {
    if k > 0 {
      ByteOfLowBytes(x >> 8, n - 1, k - 1);
    }
  }

  lemma {:induction false} ByteOfImage(x: bv64, k: nat)
    requires k < 8
    ensures Image(x)[k] == LowByte(Above(x, k))
  {
    ByteOfLowBytes(x, 8, k);
  }

  lemma LowByteAndRest(x: bv64, y: bv64)
    requires LowByte(x) == LowByte(y) && x >> 8 == y >> 8
    ensures x == y
  {
    LowByteInjective(x, y);
    LowAndRest(x, y);
  }

  lemma LowBytesParts(x: bv64, y: bv64, n: nat)
    requires n > 0 && LowBytes(x, n) == LowBytes(y, n)
    ensures LowByte(x) == LowByte(y) && LowBytes(x >> 8, n - 1) == LowBytes(y >> 8, n - 1)
  {
    OneAndMore(LowByte(x), LowBytes(x >> 8, n - 1));
    OneAndMore(LowByte(y), LowBytes(y >> 8, n - 1));
  }

  lemma OneAndMore(b: Byte, more: seq<Byte>)
    ensures ([b] + more)[0] == b && ([b] + more)[1..] == more
  {
  }

  lemma {:induction false} LowBytesDecide(x: bv64, y: bv64, n: nat)
    requires LowBytes(x, n) == LowBytes(y, n) && Above(x, n) == Above(y, n)
    ensures x == y
    decreases n
  {
    if n > 0 {
      LowBytesParts(x, y, n);
      LowBytesDecide(x >> 8, y >> 8, n - 1);
      LowByteAndRest(x, y);
    }
  }

  lemma FourShifts(x: bv64)
    ensures x >> 16 >> 16 >> 16 >> 16 == 0
  {
  }

  lemma AboveTwo(x: bv64, n: nat)
    ensures Above(x, n + 2) == Above(x >> 16, n)
  {
    assert Above(x, n + 2) == Above(x >> 8, n + 1) == Above(x >> 8 >> 8, n);
    TwoShifts(x);
  }

  lemma TwoShifts(x: bv64)
    ensures x >> 8 >> 8 == x >> 16
  {
  }

  lemma {:induction false} NothingAbove(x: bv64)
    ensures Above(x, 8) == 0
  {
    AboveTwo(x, 6);
    AboveTwo(x >> 16, 4);
    AboveTwo(x >> 16 >> 16, 2);
    AboveTwo(x >> 16 >> 16 >> 16, 0);
    FourShifts(x);
  }

  lemma ImageIsInjective(x: bv64, y: bv64)
    requires Image(x) == Image(y)
    ensures x == y
  {
    NothingAbove(x);
    NothingAbove(y);
    LowBytesDecide(x, y, 8);
  }

  // ---------- every eight bytes are the image of one word ----------

  /** Counting up to `b` on eight bits. */
  function Counted(b: Byte): bv8 {
    if b == 0 then 0 else Counted(b - 1) + 1
  }

  lemma OneUp(x: bv8)
    requires x as int < 255
    ensures (x + 1) as int == x as int + 1
  {
  }

  lemma {:induction false} CountedBack(b: Byte)
    ensures Counted(b) as int == b
  {
    if b > 0 {
      CountedBack(b - 1);
      OneUp(Counted(b - 1));
    }
  }

  /** `y` with one more byte below it. */
  function Below(y: bv64, x: bv8): bv64 {
    (y << 8) | (x as bv64)
  }

  lemma BelowParts(y: bv64, x: bv8)
    ensures (Below(y, x) & 0xFF) as bv8 == x
    ensures y & 0xFF00_0000_0000_0000 == 0 ==> Below(y, x) >> 8 == y
  {
  }

  /** The word with these bytes, least significant byte first. */
  function Word64(bytes: seq<Byte>): bv64 {
    if bytes == [] then 0 else Below(Word64(bytes[1..]), Counted(bytes[0]))
  }

  lemma LowByteIs(x: bv64, small: bv8, b: Byte)
    requires (x & 0xFF) as bv8 == small && small as int == b
    ensures LowByte(x) == b
  {
  }

  lemma AboveOne(x: bv64, n: nat)
    requires n > 0
    ensures Above(x, n) == Above(x >> 8, n - 1)
  {
  }

  lemma {:induction false} AboveNothing(n: nat)
    ensures Above(0, n) == 0
  {
    if n > 0 {
      AboveOne(0, n);
      AboveNothing(n - 1);
    }
  }

  lemma {:induction false} AboveMore(x: bv64, n: nat, m: nat)
    ensures Above(x, n + m) == Above(Above(x, n), m)
  {
    if n > 0 {
      AboveOne(x, n + m);
      AboveOne(x, n);
      AboveMore(x >> 8, n - 1, m);
    }
  }

  lemma SevenShifts(x: bv64, a: bv64, b: bv64, c: bv64)
    requires a == x >> 16 && b == a >> 16 && c == b >> 16 && c >> 8 == 0
    ensures x & 0xFF00_0000_0000_0000 == 0
  {
  }

  /** A word whose bytes end below the top one has nothing in the top one. */
  lemma {:induction false} TopIsFree(x: bv64, n: nat)
    requires n <= 7 && Above(x, n) == 0
    ensures x & 0xFF00_0000_0000_0000 == 0
  {
    AboveMore(x, n, 7 - n);
    AboveNothing(7 - n);
    SevenAbove(x, 7);
  }

  lemma {:induction false} SevenAbove(x: bv64, n: nat)
    requires n == 7 && Above(x, n) == 0
    ensures x & 0xFF00_0000_0000_0000 == 0
  {
    var a := x >> 16;
    var b := a >> 16;
    var c := b >> 16;
    AboveTwo(x, n - 2);
    AboveTwo(a, n - 4);
    AboveTwo(b, n - 6);
    AboveOne(c, n - 6);
    SevenShifts(x, a, b, c);
  }

  lemma {:induction false} LowestBelow(y: bv64, b: Byte)
    ensures LowByte(Below(y, Counted(b))) == b
  {
    BelowParts(y, Counted(b));
    CountedBack(b);
    LowByteIs(Below(y, Counted(b)), Counted(b), b);
  }

  lemma RestAboveBelow(y: bv64, x: bv8, n: nat)
    requires n <= 7 && Above(y, n) == 0
    ensures Below(y, x) >> 8 == y && Above(Below(y, x), n + 1) == 0
  {
    TopIsFree(y, n);
    BelowParts(y, x);
    AboveOne(Below(y, x), n + 1);
  }

  lemma LowBytesFrom(x: bv64, y: bv64, n: nat, b: Byte, rest: seq<Byte>)
    requires LowByte(x) == b && x >> 8 == y && LowBytes(y, n) == rest
    ensures LowBytes(x, n + 1) == [b] + rest
  {
  }

  /** The least significant byte comes first. */
  lemma ImageExample()
    ensures Image(0x0807_0605_0403_0201) == [1, 2, 3, 4, 5, 6, 7, 8]
  {
    LowBytesFrom(0x08, 0, 0, 8, []);
    LowBytesFrom(0x0807, 0x08, 1, 7, [8]);
    LowBytesFrom(0x08_0706, 0x0807, 2, 6, [7, 8]);
    LowBytesFrom(0x0807_0605, 0x08_0706, 3, 5, [6, 7, 8]);
    LowBytesFrom(0x08_0706_0504, 0x0807_0605, 4, 4, [5, 6, 7, 8]);
    LowBytesFrom(0x0807_0605_0403, 0x08_0706_0504, 5, 3, [4, 5, 6, 7, 8]);
    LowBytesFrom(0x08_0706_0504_0302, 0x0807_0605_0403, 6, 2, [3, 4, 5, 6, 7, 8]);
    LowBytesFrom(0x0807_0605_0403_0201, 0x08_0706_0504_0302, 7, 1, [2, 3, 4, 5, 6, 7, 8]);
  }

  lemma {:induction false} Word64Is(b: Byte, rest: seq<Byte>)
    ensures Word64([b] + rest) == Below(Word64(rest), Counted(b))
  {
    assert ([b] + rest)[1..] == rest;
  }

  lemma {:induction false} OneMoreByte(y: bv64, b: Byte, rest: seq<Byte>)
    requires |rest| <= 7 && LowBytes(y, |rest|) == rest && Above(y, |rest|) == 0
    ensures var x := Below(y, Counted(b)); LowBytes(x, |rest| + 1) == [b] + rest && Above(x, |rest| + 1) == 0
  {
    LowestBelow(y, b);
    RestAboveBelow(y, Counted(b), |rest|);
    LowBytesFrom(Below(y, Counted(b)), y, |rest|, b, rest);
  }

  lemma {:induction false} Word64Bytes(bytes: seq<Byte>)
    requires |bytes| <= 8
    ensures LowBytes(Word64(bytes), |bytes|) == bytes && Above(Word64(bytes), |bytes|) == 0
  {
    if bytes != [] {
      Word64Bytes(bytes[1..]);
      OneMoreByte(Word64(bytes[1..]), bytes[0], bytes[1..]);
      Word64Is(bytes[0], bytes[1..]);
      assert [bytes[0]] + bytes[1..] == bytes;
    }
  }

  /** Whatever eight bytes are read, they are the image of a word. */
  lemma {:induction false} ImageIsOnto(bytes: seq<Byte>)
    requires |bytes| == 8
    ensures Image(Word64(bytes)) == bytes
  {
    Word64Bytes(bytes);
  }

  /** A client that reads other bytes than the challenge answers something the server does not accept. */
  lemma OtherBytesAreRejected(challenge: bv64, read: bv64)
    ensures Accepts(challenge, Scramble(read)) <==> Image(read) == Image(challenge)
  {
    ResponseFitsOneChallenge(challenge, Scramble(read));
    ScrambleIsBijection(read, read);
    if Image(read) == Image(challenge) {
      ImageIsInjective(read, challenge);
    }
  }
}
