/** What happens when a posted lambda runs before the handshake bytes have left. */
module Overtaking {
  import opened Words
  import opened Lists
  import opened Packets
  import opened Transport
  import opened Framing
  import opened Delivery
  import Handshake

  // ---------- once the handshake bytes are out ----------

  lemma {:induction false} PlayStaysOrderly(n: Net, es: seq<Event>)
    requires OrderlyReachable(n) && GreetingLeft(n.snd.writes) == [] && Play(n, es).Some?
    ensures OrderlyReachable(Play(n, es).value)
    decreases |es|
  {
    if es != [] {
      OrderlyReachableOk(n);
      OrderlyNext(n, es[0]);
      GreetingStaysOut(n, es[0]);
      PlayStaysOrderly(Next(n, es[0]), es[1..]);
    }
  }

  // ---------- a header overtakes the handshake bytes ----------

  /** A posted lambda may run while handshake bytes are left, and both ends are open. */
  ghost predicate CanOvertake(n: Net) {
    OrderlyReachable(n) && n.snd.open && n.rcv.open && n.snd.posted != [] && GreetingLeft(n.snd.writes) != []
  }

  /** The lambda runs, `x` bytes of the header leave, then the handshake bytes, then the rest of the header. */
  function Overtake(n: Net, x: nat): seq<Event>
    requires x <= HEADER_SIZE
  {
    [RunPost] + [Emit(1, x)] + ([Emit(0, |GreetingLeft(n.snd.writes)|)] + [Emit(1, HEADER_SIZE - x)])
  }

  /** What that puts on the wire. */
  function Mixed(g: seq<Byte>, header: seq<Byte>, x: nat): seq<Byte>
    requires x <= |header|
  {
    header[..x] + g + header[x..]
  }

  /** And the state it ends in. */
  function Overtaken(n: Net, x: nat): Net
    requires n.snd.posted != [] && x <= HEADER_SIZE
  {
    var p := n.snd.posted[0];
    var bytes := Mixed(GreetingLeft(n.snd.writes), HeaderBytes(p), x);
    n.(snd := n.snd.(posted := n.snd.posted[1..], queue := [p], writes := [Greet([]), HeaderOf(p, [])]),
       out := n.out + bytes, wire := n.wire + bytes)
  }

  lemma NothingReadYet(n: Net)
    requires ReaderOk(n.rcv) && NothingLost(n) && |n.out| < GREETING_SIZE
    ensures n.rcv.challenge.None? && n.rcv.buf + n.wire == n.out
  {
    assert |Read(n.rcv)| <= |n.out|;
    assert [] + (n.rcv.buf + n.wire) == n.rcv.buf + n.wire;
  }

  /** Where an overtaking starts: the handshake write is all that is outstanding, nothing has been queued. */
  lemma BeforePump(n: Net)
    requires CanOvertake(n)
    ensures PumpOk(n.snd) && n.snd.queue == [] && n.snd.finished == [] && n.snd.sends == n.snd.posted
    ensures n.snd.writes == [Greet(GreetingLeft(n.snd.writes))]
  {
    OrderlyReachableOk(n);
    NothingYet(n.snd);
    OnlyGreeting(n.snd);
  }

  lemma StartedSplits(hello: seq<Byte>, left: seq<Byte>)
    requires |left| <= |hello| && left == hello[|hello| - |left|..]
    ensures |Started(hello, left)| == |hello| - |left| && Started(hello, left) + left == hello
  {
  }

  /** And of the handshake bytes only the first few have left, and none have been read. */
  lemma BeforeOvertaking(n: Net)
    requires CanOvertake(n)
    ensures |n.out| + |GreetingLeft(n.snd.writes)| == GREETING_SIZE == |n.hello|
    ensures n.out + GreetingLeft(n.snd.writes) == n.hello
    ensures ReaderOk(n.rcv) && n.rcv.challenge.None? && n.rcv.buf + n.wire == n.out
  {
    OrderlyReachableOk(n);
    BeforePump(n);
    GreetingAlone(n.hello, n.snd);
    StartedSplits(n.hello, GreetingLeft(n.snd.writes));
    NothingReadYet(n);
  }

  /** Half way: the first header bytes have left. */
  function Halfway(n: Net, x: nat): Net
    requires n.snd.posted != [] && x <= HEADER_SIZE
  {
    var p := n.snd.posted[0];
    var header := HeaderBytes(p);
    n.(snd := n.snd.(posted := n.snd.posted[1..], queue := [p],
                     writes := [Greet(GreetingLeft(n.snd.writes)), HeaderOf(p, header[x..])]),
       out := n.out + header[..x], wire := n.wire + header[..x])
  }

  lemma {:induction false} HalfwayPlays(n: Net, x: nat)
    requires n.snd.open && n.snd.posted != [] && n.snd.queue == [] && x <= HEADER_SIZE
    requires n.snd.writes == [Greet(GreetingLeft(n.snd.writes))]
    ensures Play(n, [RunPost] + [Emit(1, x)]) == Some(Halfway(n, x))
  {
    var n1 := Next(n, RunPost);
    var p := n.snd.posted[0];
    assert n1.snd.writes == [Greet(GreetingLeft(n.snd.writes)), HeaderOf(p, HeaderBytes(p))];
    assert Next(n1, Emit(1, x)) == Halfway(n, x);
    PlayLast(n1, Emit(1, x));
    PlayFirst(n, RunPost, [Emit(1, x)]);
  }

  lemma MixedParts(a: seq<Byte>, g: seq<Byte>, header: seq<Byte>, x: nat)
    requires x <= |header|
    ensures a + header[..x] + g + header[x..] == a + Mixed(g, header, x)
  {
  }

  lemma BothOut(g: Write, h: Write, g': Write, h': Write)
    ensures [g, h][0 := g'] == [g', h] && [g', h][1 := h'] == [g', h']
  {
  }

  lemma SecondHalfPlays(n: Net, x: nat)
    requires n.snd.open && n.snd.posted != [] && x <= HEADER_SIZE
    ensures Play(Halfway(n, x), [Emit(0, |GreetingLeft(n.snd.writes)|)] + [Emit(1, HEADER_SIZE - x)])
            == Some(Overtaken(n, x))
  {
    var g, p := GreetingLeft(n.snd.writes), n.snd.posted[0];
    var header := HeaderBytes(p);
    var n2 := Halfway(n, x);
    BothOut(Greet(g), HeaderOf(p, header[x..]), Greet([]), HeaderOf(p, []));
    EmitsAll(n2, 0);
    var n3 := Next(n2, Emit(0, |g|));
    EmitsAll(n3, 1);
    MixedParts(n.out, g, header, x);
    MixedParts(n.wire, g, header, x);
    PlayTwo(n2, Emit(0, |g|), Emit(1, HEADER_SIZE - x));
  }

  lemma {:induction false} OvertakePlays(n: Net, x: nat)
    requires CanOvertake(n) && x <= HEADER_SIZE
    ensures Play(n, Overtake(n, x)) == Some(Overtaken(n, x))
  {
    BeforePump(n);
    HalfwayPlays(n, x);
    SecondHalfPlays(n, x);
    PlayOn(n, [RunPost] + [Emit(1, x)], [Emit(0, |GreetingLeft(n.snd.writes)|)] + [Emit(1, HEADER_SIZE - x)]);
  }

  /** Everything in flight arrives, and the receiver reads its challenge and its first header. */
  function ReadBoth(n: Net): seq<Event> {
    [Arrive(|n.wire|)] + ([ReadGreeting] + [ReadDone])
  }

  lemma ArrivesAll(n: Net)
    ensures Next(n, Arrive(|n.wire|)) == n.(wire := [], rcv := n.rcv.(buf := n.rcv.buf + n.wire))
  {
    assert n.wire[..|n.wire|] == n.wire && n.wire[|n.wire|..] == [];
  }

  lemma GreetingThenHeader(bytes: seq<Byte>)
    requires GREETING_SIZE + HEADER_SIZE <= |bytes|
    ensures bytes[..GREETING_SIZE] + bytes[GREETING_SIZE..][..HEADER_SIZE] == bytes[..GREETING_SIZE + HEADER_SIZE]
    ensures bytes[..GREETING_SIZE] + ([] + []) == bytes[..GREETING_SIZE]
  {
  }

  /** The two reads of the receiver that find both in their buffer. */
  lemma TwoReads(r: Receiver)
    requires ReaderOk(r) && r.challenge.None? && GREETING_SIZE + HEADER_SIZE <= |r.buf|
    ensures var q := HeaderRead(GreetingRead(r));
            && q.challenge == Some(r.buf[..GREETING_SIZE]) && Read(q) == r.buf[..GREETING_SIZE + HEADER_SIZE]
  {
    GreetingThenHeader(r.buf);
    HeaderReadKeeps(GreetingRead(r));
  }

  lemma {:induction false} ReadBothPlays(n: Net)
    requires ReaderOk(n.rcv) && n.rcv.open && n.rcv.challenge.None?
    requires GREETING_SIZE + HEADER_SIZE <= |n.rcv.buf + n.wire|
    ensures Play(n, ReadBoth(n)).Some?
    ensures var m, bytes := Play(n, ReadBoth(n)).value, n.rcv.buf + n.wire;
            && m.snd == n.snd && m.hello == n.hello && m.out == n.out
            && m.rcv.challenge == Some(bytes[..GREETING_SIZE])
            && Read(m.rcv) == bytes[..GREETING_SIZE + HEADER_SIZE]
  {
    ArrivesAll(n);
    var n1 := Next(n, Arrive(|n.wire|));
    TwoReads(n1.rcv);
    PlayTwo(n1, ReadGreeting, ReadDone);
    PlayFirst(n, Arrive(|n.wire|), [ReadGreeting] + [ReadDone]);
  }

  /** The whole run. */
  function Rush(n: Net, x: nat): seq<Event>
    requires n.snd.posted != [] && x <= HEADER_SIZE
  {
    Overtake(n, x) + ReadBoth(Overtaken(n, x))
  }

  lemma {:induction false} RushPlays(n: Net, x: nat)
    requires CanOvertake(n) && x <= HEADER_SIZE
    ensures Play(n, Rush(n, x)).Some?
    ensures var m := Play(n, Rush(n, x)).value;
            var bytes := n.out + Mixed(GreetingLeft(n.snd.writes), HeaderBytes(n.snd.posted[0]), x);
            && m.hello == n.hello && m.snd.sends == n.snd.posted && |bytes| == GREETING_SIZE + HEADER_SIZE
            && m.rcv.challenge == Some(bytes[..GREETING_SIZE]) && Read(m.rcv) == bytes
  {
    BeforePump(n);
    BeforeOvertaking(n);
    OvertakePlays(n, x);
    var mid, bytes := Overtaken(n, x), n.out + Mixed(GreetingLeft(n.snd.writes), HeaderBytes(n.snd.posted[0]), x);
    Regroup(n.rcv.buf, n.wire, Mixed(GreetingLeft(n.snd.writes), HeaderBytes(n.snd.posted[0]), x));
    assert mid.rcv.buf + mid.wire == bytes;
    ReadBothPlays(mid);
    PlayOn(n, Overtake(n, x), ReadBoth(mid));
    assert bytes[..GREETING_SIZE + HEADER_SIZE] == bytes;
  }

  /** The mixed bytes start the stream exactly if the two parts can be exchanged. */
  lemma MixedInOrder(a: seq<Byte>, g: seq<Byte>, header: seq<Byte>, x: nat, rest: seq<Byte>)
    requires x <= |header|
    ensures a + Mixed(g, header, x) <= (a + g) + (header + rest) <==> header[..x] + g == g + header[..x]
  {
    assert (a + g) + (header + rest) == a + (g + header[..x] + (header[x..] + rest));
    PrefixParts(a, Mixed(g, header, x), a, g + header[..x] + (header[x..] + rest));
    PrefixParts(header[..x] + g, header[x..], g + header[..x], header[x..] + rest);
  }

  /** Framing under an overtaking, exactly: `x` header bytes that leave before the last handshake bytes `g`
      mislead the receiver unless the two can be exchanged. */
  lemma {:induction false} OvertakingMisleadsExactly(n: Net, x: nat)
    requires CanOvertake(n) && x <= HEADER_SIZE
    ensures Play(n, Rush(n, x)).Some?
    ensures var g, early := GreetingLeft(n.snd.writes), HeaderBytes(n.snd.posted[0])[..x];
            Faithful(Play(n, Rush(n, x)).value) <==> early + g == g + early
  {
    BeforePump(n);
    BeforeOvertaking(n);
    RushPlays(n, x);
    OrderlyReachableOk(n);
    var m, g, p := Play(n, Rush(n, x)).value, GreetingLeft(n.snd.writes), n.snd.posted[0];
    PlayReaches(n, Rush(n, x));
    FramingExactly(m);
    FramesFirst(m.snd.sends);
    Regroup(HeaderBytes(p), Payload(p), Frames(m.snd.sends[1..]));
    MixedInOrder(n.out, g, HeaderBytes(p), x, Payload(p) + Frames(m.snd.sends[1..]));
  }

  lemma WholeOvertaking(hello: seq<Byte>, header: seq<Byte>)
    requires |hello| == GREETING_SIZE && |header| == HEADER_SIZE
    ensures ([] + Mixed(hello, header, HEADER_SIZE))[..GREETING_SIZE] == header
    ensures header[..HEADER_SIZE] + hello == hello + header[..HEADER_SIZE] <==> header == hello
  {
    assert header[..HEADER_SIZE] == header;
    assert (header + hello)[..HEADER_SIZE] == header && (hello + header)[..HEADER_SIZE] == hello;
  }

  /** In particular a whole header in front of the whole challenge: the client takes the header for the
      challenge, and its answer is accepted exactly if the two happen to be the same bytes. */
  lemma {:induction false} HeaderIsTakenForChallenge(n: Net, challenge: bv64)
    requires CanOvertake(n) && n.out == [] && n.hello == Handshake.Image(challenge)
    ensures Play(n, Rush(n, HEADER_SIZE)).Some?
    ensures var m := Play(n, Rush(n, HEADER_SIZE)).value;
            var header := HeaderBytes(n.snd.posted[0]);
            var answered := Handshake.Word64(header);
            && m.rcv.challenge == Some(header) && header == Handshake.Image(answered)
            && (Faithful(m) <==> header == n.hello)
            && (Handshake.Accepts(challenge, Handshake.Scramble(answered)) <==> header == n.hello)
  {
    var header := HeaderBytes(n.snd.posted[0]);
    Handshake.ImageIsOnto(header);
    Handshake.OtherBytesAreRejected(challenge, Handshake.Word64(header));
    WholeHeaderFirst(n);
  }

  lemma {:induction false} WholeHeaderFirst(n: Net)
    requires CanOvertake(n) && n.out == []
    ensures Play(n, Rush(n, HEADER_SIZE)).Some?
    ensures var m := Play(n, Rush(n, HEADER_SIZE)).value;
            && m.rcv.challenge == Some(HeaderBytes(n.snd.posted[0]))
            && (Faithful(m) <==> HeaderBytes(n.snd.posted[0]) == n.hello)
  {
    BeforeOvertaking(n);
    assert [] + GreetingLeft(n.snd.writes) == GreetingLeft(n.snd.writes);
    RushPlays(n, HEADER_SIZE);
    OvertakingMisleadsExactly(n, HEADER_SIZE);
    WholeOvertaking(n.hello, HeaderBytes(n.snd.posted[0]));
  }

  // ---------- the guard is exact ----------

  lemma {:induction false} CommutesWithOne(b: Byte, g: seq<Byte>, i: nat)
    requires [b] + g == g + [b] && i < |g|
    ensures g[i] == b
  {
    if i == 0 {
      assert ([b] + g)[0] == (g + [b])[0];
    } else {
      CommutesWithOne(b, g, i - 1);
      assert ([b] + g)[i] == (g + [b])[i];
    }
  }

  /** One or two bytes of a header whose second byte is zero do not commute with any bytes. */
  lemma SomethingMisleads(header: seq<Byte>, g: seq<Byte>)
    requires |header| == HEADER_SIZE && header[0] != 0 && header[1] == 0 && g != []
    ensures header[..1] + g != g + header[..1] || header[..2] + g != g + header[..2]
  {
    if header[..1] + g == g + header[..1] {
      assert header[..1] == [header[0]];
      CommutesWithOne(header[0], g, 0);
      if |g| > 1 {
        CommutesWithOne(header[0], g, 1);
      }
      assert (header[..2] + g)[1] == 0;
      assert (g + header[..2])[1] == header[0];
    }
  }

  lemma SmallIdHeader(p: Packet)
    requires 0 < p.id < BYTE_BOUND
    ensures HeaderBytes(p)[0] != 0 && HeaderBytes(p)[1] == 0
  {
    assert HeaderBytes(p)[0] == Encode(p.id)[0] && HeaderBytes(p)[1] == Encode(p.id)[1];
  }

  /** Some continuation that runs the next lambda now misleads the receiver. */
  ghost predicate CanMislead(n: Net) {
    exists es :: es != [] && es[0] == RunPost && Play(n, es).Some? && !Faithful(Play(n, es).value)
  }

  /** The guard on the pump is exact: running a posted lambda can mislead the receiver if and only if
      handshake bytes are still to leave. Every packet type that is sent is one byte long and not zero. */
  lemma GuardIsExact(n: Net)
    requires OrderlyReachable(n) && n.snd.open && n.rcv.open
    requires n.snd.posted != [] && 0 < n.snd.posted[0].id < BYTE_BOUND
    ensures CanMislead(n) <==> GreetingLeft(n.snd.writes) != []
  {
    var g, header := GreetingLeft(n.snd.writes), HeaderBytes(n.snd.posted[0]);
    if g != [] {
      SmallIdHeader(n.snd.posted[0]);
      SomethingMisleads(header, g);
      OvertakingMisleadsExactly(n, 1);
      OvertakingMisleadsExactly(n, 2);
      assert Rush(n, 1)[0] == RunPost && Rush(n, 2)[0] == RunPost;
    } else {
      forall es | Play(n, es).Some?
        ensures Faithful(Play(n, es).value)
      {
        PlayStaysOrderly(n, es);
        FramingIsCorrect(Play(n, es).value);
      }
    }
  }

  /** The case the server can get into: an AddClient is broadcast to a connection whose challenge has not
      left. Whatever the challenge, the link can then hand its client something else than was sent. */
  lemma EarlyBroadcastMisleads(hello: seq<Byte>, id: Word)
    requires |hello| == GREETING_SIZE
    ensures OrderlyReachable(Posted(hello, [IdPacket(GAME_ADD_CLIENT, id)]))
    ensures CanMislead(Posted(hello, [IdPacket(GAME_ADD_CLIENT, id)]))
  {
    var p := IdPacket(GAME_ADD_CLIENT, id);
    IdPacketCarries(GAME_ADD_CLIENT, id);
    AnyListIsPosted(hello, [p]);
    GuardIsExact(Posted(hello, [p]));
  }
}
