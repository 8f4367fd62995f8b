/** NetworkClient/Client.cpp, `sendSpecificPacket` and `retrieveGameMsgs`: a vector of game words
    packed back to front behind its length and the sender's id, and unpacked front to back. */
module GameMessages {
  import opened Words
  import opened Packets

  const NOT_FOUND: Word := 0xFFFF_FFFF

  /** The packet after the reverse push loop. */
  function PushBackwards(p: Packet, words: seq<Word>): Packet {
    if words == [] then p else PushWord(PushBackwards(p, words[1..]), words[0])
  }

  /** What `sendSpecificPacket` sends. */
  function Pack(kind: Word, words: seq<Word>, sender: Word): Packet {
    PushWord(PushWord(PushBackwards(NewPacket(kind), words), |words| % WORD_BOUND), sender)
  }

  /** The packets whose byte count fits the 32-bit header size. */
  predicate Fits(words: seq<Word>) {
    4 * |words| + 8 < WORD_BOUND
  }

  lemma {:induction false} PushBackwardsShape(p: Packet, words: seq<Word>)
    requires Agrees(p) && |p.body| + 4 * |words| < WORD_BOUND
    ensures var q := PushBackwards(p, words);
            q.id == p.id && |q.body| == |p.body| + 4 * |words| && Agrees(q)
  {
    if words != [] {
      PushBackwardsShape(p, words[1..]);
      PushAgrees(PushBackwards(p, words[1..]), Encode(words[0]));
    }
  }

  /** A sent game packet is honest about its size, carries its kind, and ends with its sender's id. */
  lemma PackShape(kind: Word, words: seq<Word>, sender: Word)
    requires Fits(words)
    ensures var p := Pack(kind, words, sender);
            p.id == kind && |p.body| == 4 * |words| + 8 && Agrees(p) && PopWord(p) == sender
  {
    var loaded := PushBackwards(NewPacket(kind), words);
    PushBackwardsShape(NewPacket(kind), words);
    PushAgrees(loaded, Encode(|words|));
    var counted := PushWord(loaded, |words|);
    PushAgrees(counted, Encode(sender));
    PopUndoesPushWord(counted, sender);
  }

  // ---------- unpacking ----------

  /** The words the forward pop loop stores. */
  function PopWords(p: Packet, n: nat): (words: seq<Word>)
    requires 4 * n <= |p.body|
    ensures |words| == n
    decreases n
  {
    if n == 0 then [] else [PopWord(p)] + PopWords(PopRest(p, 4), n - 1)
  }

  /** The packet after that loop. */
  function AfterWords(p: Packet, n: nat): Packet
    requires 4 * n <= |p.body|
    decreases n
  {
    if n == 0 then p else AfterWords(PopRest(p, 4), n - 1)
  }

  /** The body is long enough for its sender id, its length and the words the length announces. */
  predicate Retrievable(p: Packet) {
    && 8 <= |p.body|
    && var counted := PopRest(p, 4);
       4 * PopWord(counted) <= |PopRest(counted, 4).body|
  }

  /** `retrieveGameMsgs` for a sender found at `index`: the words and the index, or nothing. */
  function Retrieve(p: Packet, index: Word): seq<Word>
    requires Retrievable(p)
  {
    if index == NOT_FOUND then []
    else
      var counted := PopRest(p, 4);
      PopWords(PopRest(counted, 4), PopWord(counted)) + [index]
  }

  /** What that leaves of the packet. */
  function AfterRetrieve(p: Packet, index: Word): Packet
    requires Retrievable(p)
  {
    var counted := PopRest(p, 4);
    if index == NOT_FOUND then counted
    else AfterWords(PopRest(counted, 4), PopWord(counted))
  }

  lemma PopUndoesPushExactly(p: Packet, w: Word)
    requires Agrees(p)
    ensures 4 <= |PushWord(p, w).body| && PopWord(PushWord(p, w)) == w && PopRest(PushWord(p, w), 4) == p
  {
    PopUndoesPushWord(p, w);
  }

  /** The two loops undo each other: words pushed last to first are popped first to last. */
  lemma {:induction false} PopWordsUndoPush(p: Packet, words: seq<Word>)
    requires Agrees(p) && |p.body| + 4 * |words| < WORD_BOUND
    ensures var q := PushBackwards(p, words);
            |q.body| == |p.body| + 4 * |words| && PopWords(q, |words|) == words && AfterWords(q, |words|) == p
  {
    PushBackwardsShape(p, words);
    if words != [] {
      var rest := words[1..];
      var q := PushBackwards(p, rest);
      PushBackwardsShape(p, rest);
      PopWordsUndoPush(p, rest);
      PopUndoesPushExactly(q, words[0]);
      assert PushBackwards(p, words) == PushWord(q, words[0]);
      assert words == [words[0]] + rest;
    }
  }

  /** The images of these words, the last one first. */
  function Backwards(words: seq<Word>): seq<Byte> {
    if words == [] then [] else Encode(words[|words| - 1]) + Backwards(words[..|words| - 1])
  }

  lemma {:induction false} BackwardsFromFront(words: seq<Word>)
    requires words != []
    ensures Backwards(words) == Backwards(words[1..]) + Encode(words[0])
  {
    if |words| > 1 {
      var front := words[..|words| - 1];
      BackwardsFromFront(front);
      assert front[1..] == words[1..][..|words| - 2];
      assert Encode(words[|words| - 1]) + (Backwards(front[1..]) + Encode(words[0]))
          == Encode(words[|words| - 1]) + Backwards(front[1..]) + Encode(words[0]);
    } else {
      assert words == [words[0]] && words[1..] == [];
      assert [] + Encode(words[0]) == Encode(words[0]) + [];
    }
  }

  lemma {:induction false} PushedBody(p: Packet, words: seq<Word>)
    ensures PushBackwards(p, words).body == p.body + Backwards(words)
  {
    if words == [] {
      assert p.body + [] == p.body;
    } else {
      PushedBody(p, words[1..]);
      BackwardsFromFront(words);
      assert p.body + Backwards(words[1..]) + Encode(words[0]) == p.body + (Backwards(words[1..]) + Encode(words[0]));
    }
  }

  lemma {:induction false} BackwardsLength(words: seq<Word>)
    ensures |Backwards(words)| == 4 * |words|
  {
    if words != [] {
      BackwardsLength(words[..|words| - 1]);
    }
  }

  /** The header of a packed packet tells its size exactly if the byte count fits 32 bits. */
  lemma {:induction false} FitsExactly(kind: Word, words: seq<Word>, sender: Word)
    ensures Agrees(Pack(kind, words, sender)) <==> Fits(words)
  {
    PushedBody(NewPacket(kind), words);
    BackwardsLength(words);
  }

  /** What a packed packet looks like on the wire: the words with the last one first, their number, the
      sender. */
  lemma {:induction false} PackedBody(kind: Word, words: seq<Word>, sender: Word)
    requires Fits(words)
    ensures Pack(kind, words, sender).body == Backwards(words) + Encode(|words|) + Encode(sender)
  {
    SmallCount(words);
    PushedBody(NewPacket(kind), words);
    assert [] + Backwards(words) == Backwards(words);
  }

  lemma SmallCount(words: seq<Word>)
    requires |words| < WORD_BOUND
    ensures |words| % WORD_BOUND == |words|
  {
  }

  lemma {:induction false} PackIs(kind: Word, words: seq<Word>, sender: Word)
    requires |words| < WORD_BOUND
    ensures Pack(kind, words, sender) == PushWord(PushWord(PushBackwards(NewPacket(kind), words), |words|), sender)
  {
    SmallCount(words);
  }

  lemma PushWordAgrees(p: Packet, w: Word)
    requires |p.body| + 4 < WORD_BOUND
    ensures Agrees(PushWord(p, w)) && |PushWord(p, w).body| == |p.body| + 4
  {
    PushAgrees(p, Encode(w));
  }

  /** The layers of a packed packet, from the outside in: sender, length, words. */
  lemma {:induction false} PackLayers(kind: Word, words: seq<Word>, sender: Word)
    requires Fits(words)
    ensures var p := Pack(kind, words, sender);
            && 8 <= |p.body| && PopWord(p) == sender
            && PopWord(PopRest(p, 4)) == |words|
            && PopRest(PopRest(p, 4), 4) == PushBackwards(NewPacket(kind), words)
  {
    var loaded := PushBackwards(NewPacket(kind), words);
    PackIs(kind, words, sender);
    PushBackwardsShape(NewPacket(kind), words);
    PushWordAgrees(loaded, |words|);
    PushWordAgrees(PushWord(loaded, |words|), sender);
    PopUndoesPushExactly(loaded, |words|);
    PopUndoesPushExactly(PushWord(loaded, |words|), sender);
  }

  /** Unpacking inverts packing: a known sender gives the words followed by the sender's index and
      empties the body, an unknown one gives nothing. */
  lemma RetrieveInvertsPack(kind: Word, words: seq<Word>, sender: Word, index: Word)
    requires Fits(words)
    ensures var p := Pack(kind, words, sender);
            && Retrievable(p) && PopWord(p) == sender
            && Retrieve(p, index) == (if index == NOT_FOUND then [] else words + [index])
            && (if index == NOT_FOUND then PushWord(AfterRetrieve(p, index), sender) == p
                else AfterRetrieve(p, index) == NewPacket(kind))
  {
    PackLayers(kind, words, sender);
    PopWordsUndoPush(NewPacket(kind), words);
  }

  // ---------- the loops ----------

  lemma {:induction false} PushedOneMore(p: Packet, words: seq<Word>, i: nat)
    requires i < |words|
    ensures PushBackwards(p, words[i..]) == PushWord(PushBackwards(p, words[i + 1..]), words[i])
  {
    assert words[i..][1..] == words[i + 1..];
  }

  /** Its push loop. */
  method PushAll(pkt: PacketBuffer, packets: seq<Word>)
    modifies pkt
    ensures pkt.Value() == PushBackwards(old(pkt.Value()), packets)
  {
    ghost var p := pkt.Value();
    var i := |packets|;
    assert packets[i..] == [];
    while i > 0
      invariant i <= |packets|
      invariant pkt.Value() == PushBackwards(p, packets[i..])
    {
      i := i - 1;
      PushedOneMore(p, packets, i);
      pkt.PushU32(packets[i]);
    }
    assert packets[0..] == packets;
  }

  /** `sendSpecificPacket`, up to handing the packet to `Send`. */
  method PackPacket(packets: seq<Word>, kind: Word, clientID: Word) returns (pkt: PacketBuffer)
    requires |packets| < WORD_BOUND
    ensures fresh(pkt) && pkt.Value() == Pack(kind, packets, clientID)
  {
    pkt := new PacketBuffer(kind);
    PushAll(pkt, packets);
    pkt.PushU32(|packets|);
    pkt.PushU32(clientID);
    PackIs(kind, packets, clientID);
  }

  lemma OneMorePopped(popped: seq<Word>, w: Word, rest: seq<Word>)
    ensures popped + ([w] + rest) == popped + [w] + rest
  {
  }

  /** The pop loop of `retrieveGameMsgs`. */
  method PopAll(pkt: PacketBuffer, n: nat) returns (gameMsgs: seq<Word>)
    requires 4 * n <= |pkt.body|
    modifies pkt
    ensures gameMsgs == PopWords(old(pkt.Value()), n) && pkt.Value() == AfterWords(old(pkt.Value()), n)
  {
    gameMsgs := [];
    ghost var p := pkt.Value();
    for i := 0 to n
      invariant 4 * (n - i) <= |pkt.body|
      invariant PopWords(p, n) == gameMsgs + PopWords(pkt.Value(), n - i)
      invariant AfterWords(p, n) == AfterWords(pkt.Value(), n - i)
    {
      ghost var q := pkt.Value();
      var msg := pkt.PopU32();
      OneMorePopped(gameMsgs, msg, PopWords(pkt.Value(), n - i - 1));
      gameMsgs := gameMsgs + [msg];
    }
  }
}
