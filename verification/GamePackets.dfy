/** GameClientManager/GamePacket.h: game packets, the stream of words they are printed to, and the loop
    that parses such a stream. */
module GamePackets {
  import opened Words

  const PACKET_FLAG: Word := 0xFFFF_FFFF

  // ReadType, to whom a game packet is addressed.
  const READ_SNAPSHOT: Word := 0
  const READ_EVENT_CLIENT: Word := 1
  const READ_TEMPORARY: Word := 2

  datatype GamePacket = GamePacket(readType: Word, packetType: Word, readers: seq<Word>, data: seq<Word>, isLast: bool)

  // ---------- printing ----------

  /** A lone flag word, present if `wanted`. */
  function FlagIf(wanted: bool): seq<Word> {
    if wanted then [PACKET_FLAG] else []
  }

  /** `getPacket`. Nothing comes out of a packet without data or without readers. */
  function Print(p: GamePacket): seq<Word> {
    if p.data == [] || p.readers == [] then []
    else
      [p.readType] + FlagIf(|p.readers| > 1) + p.readers + FlagIf(|p.readers| > 1)
      + [p.packetType, |p.data| % WORD_BOUND] + p.data + (if p.isLast then LastPacket() else [])
  }

  function LastPacket(): seq<Word> {
    [PACKET_FLAG, PACKET_FLAG]
  }

  /** Where the words of a printed packet are: its read type, its readers (several of them between flags), its
      type, the number of data words, the data, and two flags if it is the last one. */
  lemma PrintedForm(p: GamePacket)
    requires p.data != [] && p.readers != [] && |p.data| < WORD_BOUND
    ensures var words, n := Print(p), |p.readers| + if |p.readers| > 1 then 2 else 0;
            && |words| == 3 + n + |p.data| + (if p.isLast then 2 else 0)
            && words[0] == p.readType
            && (if |p.readers| == 1 then words[1] == p.readers[0]
                else words[1] == 0xFFFF_FFFF == words[n] && words[2..n] == p.readers)
            && words[n + 1] == p.packetType && words[n + 2] == |p.data|
            && words[n + 3..n + 3 + |p.data|] == p.data
            && (p.isLast ==> words[n + 3 + |p.data|..] == [0xFFFF_FFFF, 0xFFFF_FFFF])
  {
    var flags := FlagIf(|p.readers| > 1);
    var head := [p.readType] + flags + p.readers + flags;
    var sized := head + [p.packetType, |p.data|];
    assert Print(p) == sized + p.data + if p.isLast then LastPacket() else [];
  }

  /** The same, built the way the C++ builds it. */
  method GetPacket(p: GamePacket) returns (finalPacket: seq<Word>)
    ensures finalPacket == Print(p)
    ensures finalPacket == [] <==> p.data == [] || p.readers == []
  {
    finalPacket := [];
    if |p.data| == 0 {
      return [];
    }
    if |p.readers| == 0 {
      return [];
    }
    finalPacket := finalPacket + [p.readType];
    if |p.readers| > 1 {
      finalPacket := finalPacket + [PACKET_FLAG];
    }
    finalPacket := finalPacket + p.readers;
    if |p.readers| > 1 {
      finalPacket := finalPacket + [PACKET_FLAG];
    }
    ghost var front := finalPacket;
    finalPacket := finalPacket + [p.packetType];
    finalPacket := finalPacket + [|p.data| % WORD_BOUND];
    assert finalPacket == front + [p.packetType, |p.data| % WORD_BOUND];
    finalPacket := finalPacket + p.data;
    if p.isLast {
      finalPacket := finalPacket + [PACKET_FLAG];
      finalPacket := finalPacket + [PACKET_FLAG];
    }
  }

  // ---------- parsing ----------

  /** Outcome of the parsing loop; Overrun where it reads or erases past the end of the vector. */
  datatype Parsed = Parsed(packets: seq<GamePacket>, rest: seq<Word>) | Overrun

  /** The constructor that takes a reader and the stream behind it. */
  function FromStream(readType: Word, reader: Word, words: seq<Word>): GamePacket
    requires 2 <= |words| && words[1] <= |words| - 2
  {
    GamePacket(readType, words[0], [reader], words[2..2 + words[1]], false)
  }

  /** Can one more single-reader packet be read? */
  predicate Readable(words: seq<Word>) {
    3 <= |words| && words[2] <= |words| - 3
  }

  function Cons(p: GamePacket, r: Parsed): Parsed {
    match r
    case Overrun => Overrun
    case Parsed(packets, rest) => Parsed([p] + packets, rest)
  }

  /** The loop of `packetsToGamePackets`, entered with no flag seen yet. */
  function ParseLoop(words: seq<Word>): Parsed
    decreases |words|
  {
    if words == [] then Overrun
    else if words[0] == PACKET_FLAG then Parsed([], words[1..])
    else if !Readable(words) then Overrun
    else Cons(FromStream(READ_TEMPORARY, words[0], words[1..]), ParseLoop(words[3 + words[2]..]))
  }

  function Parse(words: seq<Word>): Parsed {
    if words == [] then Parsed([], []) else ParseLoop(words)
  }

  function Prepend(ps: seq<GamePacket>, r: Parsed): Parsed {
    match r
    case Overrun => Overrun
    case Parsed(packets, rest) => Parsed(ps + packets, rest)
  }

  lemma PrependCons(ps: seq<GamePacket>, p: GamePacket, r: Parsed)
    ensures Prepend(ps, Cons(p, r)) == Prepend(ps + [p], r)
  {
    if r.Parsed? {
      assert ps + ([p] + r.packets) == ps + [p] + r.packets;
    }
  }

  /** One single-reader packet off the front of the vector. */
  method TakePacket(words: seq<Word>) returns (p: GamePacket, packets: seq<Word>)
    requires Readable(words)
    ensures p == FromStream(READ_TEMPORARY, words[0], words[1..]) && packets == words[3 + words[2]..]
  {
    var reader := words[0];
    packets := words[1..];
    p := FromStream(READ_TEMPORARY, reader, packets);
    packets := packets[1..];
    var packetSize := packets[0];
    packets := packets[1..];
    packets := packets[packetSize..];
    assert packets == words[3 + words[2]..];
  }

  /** `packetsToGamePackets`; the vector it takes by reference is handed back as `rest`. The multi-reader
      branch of the C++ needs a previous flag and no current one, which the loop guard rules out. */
  method PacketsToGamePackets(words: seq<Word>) returns (result: Parsed)
    ensures result == Parse(words)
  {
    var gamePackets: seq<GamePacket> := [];
    var packets := words;
    if |packets| == 0 {
      return Parsed(gamePackets, packets);
    }
    var currentFlag: Word, previousFlag: Word := 0, 0;
    while currentFlag != PACKET_FLAG && previousFlag != PACKET_FLAG
      invariant previousFlag != PACKET_FLAG
      invariant currentFlag == PACKET_FLAG ==> ParseLoop(words) == Parsed(gamePackets, packets)
      invariant currentFlag != PACKET_FLAG ==> ParseLoop(words) == Prepend(gamePackets, ParseLoop(packets))
      decreases |packets| + (if currentFlag == PACKET_FLAG then 0 else 1)
    {
      if |packets| == 0 {
        return Overrun;
      }
      previousFlag := currentFlag;
      currentFlag := packets[0];
      if currentFlag == PACKET_FLAG {
        packets := packets[1..];
        continue;
      }
      if !Readable(packets) {
        return Overrun;
      }
      var p: GamePacket;
      p, packets := TakePacket(packets);
      PrependCons(gamePackets, p, ParseLoop(packets));
      gamePackets := gamePackets + [p];
    }
    return Parsed(gamePackets, packets);
  }

  /** Parsing always makes progress and never invents words: what is left is a proper end of the stream. */
  lemma {:induction false} ParseShrinks(words: seq<Word>)
    requires ParseLoop(words).Parsed?
    ensures var rest := ParseLoop(words).rest;
            |rest| < |words| && rest == words[|words| - |rest|..]
    decreases |words|
  {
    if words[0] != PACKET_FLAG {
      ParseShrinks(words[3 + words[2]..]);
    }
  }

  /** What the parser makes: temporary packets with one ordinary reader each. */
  lemma {:induction false} ParsedAreSingle(words: seq<Word>)
    requires ParseLoop(words).Parsed?
    ensures forall p :: p in ParseLoop(words).packets ==>
              p.readType == 2 && |p.readers| == 1 && p.readers[0] != 0xFFFF_FFFF && !p.isLast
    decreases |words|
  {
    if words[0] != PACKET_FLAG {
      ParsedAreSingle(words[3 + words[2]..]);
    }
  }

  // ---------- parser and printer ----------

  /** A printed packet as the other side gets it: the read type is not part of the stream. */
  function Delivered(p: GamePacket): GamePacket {
    GamePacket(READ_TEMPORARY, p.packetType, p.readers, p.data, false)
  }

  /** Packets without data or readers print to nothing. */
  predicate Prints(p: GamePacket) {
    p.data != [] && p.readers != []
  }

  /** The words of a list of packets as `writePacket` strings them together: without the read types. */
  function Stream(ps: seq<GamePacket>): seq<Word> {
    if ps == [] then []
    else if !Prints(ps[0]) then Stream(ps[1..])
    else Print(ps[0])[1..] + Stream(ps[1..])
  }

  /** The stream of this packet starts with a flag, so the parser stops in front of it. */
  predicate Blocks(p: GamePacket) {
    Prints(p) && (|p.readers| > 1 || p.readers[0] == PACKET_FLAG)
  }

  /** What survives the round trip: everything in front of the first packet that blocks the parser,
      and up to the first one that carries its own closing flags. */
  function Recovered(ps: seq<GamePacket>): seq<GamePacket> {
    if ps == [] then []
    else if !Prints(ps[0]) then Recovered(ps[1..])
    else if Blocks(ps[0]) then []
    else if ps[0].isLast then [Delivered(ps[0])]
    else [Delivered(ps[0])] + Recovered(ps[1..])
  }

  /** All that was printed. */
  function AllDelivered(ps: seq<GamePacket>): seq<GamePacket> {
    if ps == [] then []
    else if !Prints(ps[0]) then AllDelivered(ps[1..])
    else [Delivered(ps[0])] + AllDelivered(ps[1..])
  }

  /** Packet sizes fit the size word. */
  predicate Sized(ps: seq<GamePacket>) {
    forall p :: p in ps ==> |p.data| < WORD_BOUND
  }

  /** Every packet is one the entities build: a single ordinary reader and no closing flags. */
  predicate SingleReader(p: GamePacket) {
    |p.readers| == 1 && p.readers[0] != 0xFFFF_FFFF && !p.isLast
  }

  lemma {:induction false} ParseOne(p: GamePacket, more: seq<Word>)
    requires Prints(p) && |p.data| < WORD_BOUND && SingleReader(p)
    ensures ParseLoop(Print(p)[1..] + more) == Cons(Delivered(p), ParseLoop(more))
  {
    var words := [p.readers[0], p.packetType, |p.data|] + p.data + more;
    assert Print(p)[1..] + more == words;
    assert words[1..][2..2 + |p.data|] == p.data;
    assert words[3 + |p.data|..] == more;
    assert [p.readers[0]] == p.readers;
  }

  lemma {:induction false} FlagFirst(words: seq<Word>, more: seq<Word>)
    requires words == [PACKET_FLAG] + more
    ensures ParseLoop(words) == Parsed([], more)
  {
    assert words[1..] == more;
  }

  /** Without its closing flags it is a packet that the parser reads. */
  lemma OpenEnd(p: GamePacket)
    requires Prints(p) && !Blocks(p)
    ensures var q := p.(isLast := false);
            Prints(q) && q.data == p.data && SingleReader(q) && Delivered(q) == Delivered(p)
  {
  }

  lemma {:induction false} ParseLast(p: GamePacket, more: seq<Word>)
    requires Prints(p) && |p.data| < WORD_BOUND && !Blocks(p) && p.isLast
    ensures ParseLoop(Print(p)[1..] + more) == Parsed([Delivered(p)], [PACKET_FLAG] + more)
  {
    var flags := [PACKET_FLAG, PACKET_FLAG] + more;
    var q := p.(isLast := false);
    OpenEnd(p);
    PrintLast(p, more);
    ParseOne(q, flags);
    TwoFlags(more);
    FlagFirst(flags, [PACKET_FLAG] + more);
    ConsNothing(Delivered(p), [PACKET_FLAG] + more);
  }

  lemma TwoFlags(more: seq<Word>)
    ensures [PACKET_FLAG, PACKET_FLAG] + more == [PACKET_FLAG] + ([PACKET_FLAG] + more)
  {
  }

  lemma ConsNothing(p: GamePacket, rest: seq<Word>)
    ensures Cons(p, Parsed([], rest)) == Parsed([p], rest)
  {
  }

  lemma PrintLast(p: GamePacket, more: seq<Word>)
    requires Prints(p) && p.isLast
    ensures Print(p)[1..] + more == Print(p.(isLast := false))[1..] + ([PACKET_FLAG, PACKET_FLAG] + more)
  {
  }

  lemma {:induction false} ParseBlocked(p: GamePacket, more: seq<Word>)
    requires Blocks(p)
    ensures var r := ParseLoop(Print(p)[1..] + more); r.Parsed? && r.packets == []
  {
    assert (Print(p)[1..] + more)[0] == PACKET_FLAG;
  }

  /** Printing any list of packets, then a flag, then anything: the parser returns exactly what Recovered
      describes, whatever words occur in types and data. */
  lemma {:induction false} ParsePrinted(ps: seq<GamePacket>, suffix: seq<Word>)
    requires Sized(ps)
    ensures var r := ParseLoop(Stream(ps) + ([PACKET_FLAG] + suffix)); r.Parsed? && r.packets == Recovered(ps)
  {
    var tail := [PACKET_FLAG] + suffix;
    if ps == [] {
      FlagFirst(tail, suffix);
      assert Stream(ps) + tail == tail;
    } else {
      var p, rest := ps[0], ps[1..];
      ParsePrinted(rest, suffix);
      if Prints(p) {
        assert Stream(ps) + tail == Print(p)[1..] + (Stream(rest) + tail);
        if Blocks(p) {
          ParseBlocked(p, Stream(rest) + tail);
        } else if p.isLast {
          ParseLast(p, Stream(rest) + tail);
        } else {
          ParseOne(p, Stream(rest) + tail);
        }
      }
    }
  }

  lemma {:induction false} StreamFirst(ps: seq<GamePacket>, tail: seq<Word>)
    requires ps != []
    ensures Stream(ps) + tail
            == if Prints(ps[0]) then Print(ps[0])[1..] + (Stream(ps[1..]) + tail) else Stream(ps[1..]) + tail
  {
  }

  lemma ConsDelivered(p: GamePacket, packets: seq<GamePacket>, rest: seq<Word>)
    ensures Cons(p, Parsed(packets, rest)) == Parsed([p] + packets, rest)
  {
  }

  /** With single readers the round trip is complete and leaves exactly the suffix. */
  lemma {:induction false} ParseInvertsPrint(ps: seq<GamePacket>, suffix: seq<Word>)
    requires Sized(ps)
    requires forall p :: p in ps && Prints(p) ==> |p.readers| == 1 && p.readers[0] != 0xFFFF_FFFF && !p.isLast
    ensures ParseLoop(Stream(ps) + ([0xFFFF_FFFF] + suffix)) == Parsed(AllDelivered(ps), suffix)
  {
    var tail := [PACKET_FLAG] + suffix;
    if ps == [] {
      FlagFirst(tail, suffix);
      assert Stream(ps) + tail == tail;
    } else {
      ParseInvertsPrint(ps[1..], suffix);
      StreamFirst(ps, tail);
      if Prints(ps[0]) {
        assert ps[0] in ps;
        ParseOne(ps[0], Stream(ps[1..]) + tail);
        ConsDelivered(Delivered(ps[0]), AllDelivered(ps[1..]), suffix);
      }
    }
  }

  /** What comes back is a beginning of what was printed. */
  lemma {:induction false} RecoveredIsPrefix(ps: seq<GamePacket>)
    ensures Recovered(ps) <= AllDelivered(ps)
  {
    if ps != [] {
      RecoveredIsPrefix(ps[1..]);
    }
  }

  /** The packets that are printed at all. */
  function Printing(ps: seq<GamePacket>): (r: seq<GamePacket>)
    ensures forall p :: p in r <==> p in ps && Prints(p)
  {
    if ps == [] then []
    else if Prints(ps[0]) then [ps[0]] + Printing(ps[1..])
    else Printing(ps[1..])
  }

  lemma {:induction false} AllDeliveredCounts(ps: seq<GamePacket>)
    ensures |AllDelivered(ps)| == |Printing(ps)|
  {
    if ps != [] {
      AllDeliveredCounts(ps[1..]);
    }
  }

  /** Every one has a single ordinary reader, and none but the last one carries its own closing flags. */
  ghost predicate ReadsThrough(printed: seq<GamePacket>) {
    (forall p :: p in printed ==> !Blocks(p)) && (forall k :: 0 <= k < |printed| - 1 ==> !printed[k].isLast)
  }

  lemma ReadsThroughCons(p: GamePacket, later: seq<GamePacket>)
    ensures ReadsThrough([p] + later) <==> !Blocks(p) && (later == [] || !p.isLast) && ReadsThrough(later)
  {
    var printed := [p] + later;
    assert printed[0] == p && printed[1..] == later;
    if ReadsThrough(printed) {
      forall k | 0 <= k < |later| - 1
        ensures !later[k].isLast
      {
        assert later[k] == printed[k + 1];
      }
    }
  }

  lemma SameTail(x: GamePacket, a: seq<GamePacket>, b: seq<GamePacket>)
    ensures [x] + a == [x] + b <==> a == b
    ensures [x] == [x] + b <==> |b| == 0
  {
    assert ([x] + a)[1..] == a && ([x] + b)[1..] == b;
    assert |[x] + b| == 1 + |b|;
  }

  /** The round trip loses nothing exactly if every printed packet has a single ordinary reader and none
      but the last one carries its own closing flags. */
  lemma {:induction false} RecoveredExactly(ps: seq<GamePacket>)
    ensures Recovered(ps) == AllDelivered(ps) <==> ReadsThrough(Printing(ps))
  {
    if ps != [] {
      var p, rest := ps[0], ps[1..];
      RecoveredExactly(rest);
      if Prints(p) {
        AllDeliveredCounts(rest);
        ReadsThroughCons(p, Printing(rest));
        SameTail(Delivered(p), Recovered(rest), AllDelivered(rest));
      }
    }
  }
}
