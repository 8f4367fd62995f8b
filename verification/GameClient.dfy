/** GameClientManager/GameClientManager.h: collecting the entities' packets into two streams, and handing
    a received stream to the readers. */
module GameClient {
  import opened Words
  import opened GamePackets

  // ---------- writePacket ----------

  /** The packets of one read type that carry data, in the order the entities produced them. */
  function OfType(ps: seq<GamePacket>, t: Word): seq<GamePacket> {
    if ps == [] then []
    else
      var p := ps[|ps| - 1];
      OfType(ps[..|ps| - 1], t) + if p.readType == t && p.data != [] then [p] else []
  }

  /** All packets of all entities, in order. */
  function Collect(entities: seq<seq<GamePacket>>): seq<GamePacket> {
    if entities == [] then [] else Collect(entities[..|entities| - 1]) + entities[|entities| - 1]
  }

  function WithData(ps: seq<GamePacket>): seq<GamePacket> {
    if ps == [] then []
    else
      var p := ps[|ps| - 1];
      WithData(ps[..|ps| - 1]) + if p.data != [] then [p] else []
  }

  /** A stream that is not empty is closed with two flags. */
  function Terminated(words: seq<Word>): seq<Word> {
    if words == [] then [] else words + LastPacket()
  }

  /** A packet with data has a reader; otherwise `front` would be taken of an empty vector. */
  predicate Addressed(ps: seq<GamePacket>) {
    forall p :: p in ps && p.data != [] ==> p.readers != []
  }

  lemma {:induction false} WithDataAppend(ps: seq<GamePacket>, qs: seq<GamePacket>)
    ensures WithData(ps + qs) == WithData(ps) + WithData(qs)
  {
    if qs == [] {
      assert ps + qs == ps;
    } else {
      assert (ps + qs)[..|ps + qs| - 1] == ps + qs[..|qs| - 1];
      WithDataAppend(ps, qs[..|qs| - 1]);
    }
  }

  lemma {:induction false} StreamAppend(ps: seq<GamePacket>, qs: seq<GamePacket>)
    ensures Stream(ps + qs) == Stream(ps) + Stream(qs)
  {
    if ps == [] {
      assert ps + qs == qs;
    } else {
      assert (ps + qs)[1..] == ps[1..] + qs;
      StreamAppend(ps[1..], qs);
    }
  }

  lemma {:induction false} StreamSnoc(ps: seq<GamePacket>, p: GamePacket)
    ensures Stream(ps + [p]) == Stream(ps) + if Prints(p) then Print(p)[1..] else []
  {
    StreamAppend(ps, [p]);
    assert [p][1..] == [];
  }

  lemma {:induction false} OfTypeSnoc(ps: seq<GamePacket>, p: GamePacket, t: Word)
    ensures OfType(ps + [p], t) == OfType(ps, t) + if p.readType == t && p.data != [] then [p] else []
    ensures p.readType != t || p.data == [] ==> OfType(ps + [p], t) == OfType(ps, t)
  {
    assert (ps + [p])[..|ps|] == ps;
  }

  lemma {:induction false} OfTypeAppend(ps: seq<GamePacket>, qs: seq<GamePacket>, t: Word)
    ensures OfType(ps + qs, t) == OfType(ps, t) + OfType(qs, t)
  {
    if qs == [] {
      assert ps + qs == ps;
    } else {
      assert (ps + qs)[..|ps + qs| - 1] == ps + qs[..|qs| - 1];
      OfTypeAppend(ps, qs[..|qs| - 1], t);
    }
  }

  /** Collecting takes the packets of every entity, in the order of the entities. */
  lemma {:induction false} CollectAppend(a: seq<seq<GamePacket>>, b: seq<seq<GamePacket>>)
    ensures Collect(a + b) == Collect(a) + Collect(b)
  {
    if b == [] {
      assert a + b == a;
    } else {
      assert (a + b)[..|a + b| - 1] == a + b[..|b| - 1];
      CollectAppend(a, b[..|b| - 1]);
    }
  }

  lemma {:induction false} CollectOne(ps: seq<GamePacket>)
    ensures Collect([ps]) == ps
  {
    assert [ps][..0] == [];
    assert [] + ps == ps;
  }

  /** What keeping one kind of packets, and those with data, comes down to. */
  lemma {:induction false} KeptOne(p: GamePacket, t: Word)
    ensures OfType([p], t) == if p.readType == t && p.data != [] then [p] else []
    ensures WithData([p]) == if p.data != [] then [p] else []
  {
    assert [p][..0] == [];
  }

  /** The stream of an entity list is made of the streams of its entities, one after the other; that of an
      entity, of the words of its packets behind their read types. */
  lemma {:induction false} StreamsFollowEntities(a: seq<seq<GamePacket>>, b: seq<seq<GamePacket>>, t: Word)
    ensures Stream(OfType(Collect(a + b), t)) == Stream(OfType(Collect(a), t)) + Stream(OfType(Collect(b), t))
    ensures forall ps :: Collect([ps]) == ps
    ensures forall p :: Stream(OfType([p], t)) == if p.readType == t && Prints(p) then Print(p)[1..] else []
  {
    CollectAppend(a, b);
    OfTypeAppend(Collect(a), Collect(b), t);
    StreamAppend(OfType(Collect(a), t), OfType(Collect(b), t));
    forall ps: seq<GamePacket>
      ensures Collect([ps]) == ps
    {
      CollectOne(ps);
    }
    forall p: GamePacket
      ensures Stream(OfType([p], t)) == if p.readType == t && Prints(p) then Print(p)[1..] else []
    {
      KeptOne(p, t);
      StreamOfOne(p);
    }
  }

  lemma {:induction false} StreamOfOne(p: GamePacket)
    ensures Stream([p]) == if Prints(p) then Print(p)[1..] else []
  {
    assert [] + [p] == [p];
    StreamSnoc([], p);
  }

  lemma {:induction false} OfTypeWithData(ps: seq<GamePacket>, t: Word)
    ensures OfType(WithData(ps), t) == OfType(ps, t)
  {
    if ps != [] {
      var rest, p := ps[..|ps| - 1], ps[|ps| - 1];
      assert ps == rest + [p];
      OfTypeWithData(rest, t);
      OfTypeSnoc(rest, p, t);
      if p.data != [] {
        OfTypeSnoc(WithData(rest), p, t);
        assert WithData(ps) == WithData(rest) + [p];
      } else {
        assert WithData(ps) == WithData(rest);
      }
    }
  }

  lemma {:induction false} WithDataMembers(ps: seq<GamePacket>, p: GamePacket)
    ensures p in WithData(ps) <==> p in ps && p.data != []
  {
    if ps != [] {
      assert ps == ps[..|ps| - 1] + [ps[|ps| - 1]];
      WithDataMembers(ps[..|ps| - 1], p);
    }
  }

  lemma {:induction false} OfTypeMembers(ps: seq<GamePacket>, t: Word, p: GamePacket)
    ensures p in OfType(ps, t) <==> p in ps && p.readType == t && p.data != []
  {
    if ps != [] {
      assert ps == ps[..|ps| - 1] + [ps[|ps| - 1]];
      OfTypeMembers(ps[..|ps| - 1], t, p);
    }
  }

  lemma {:induction false} OneMoreEntity(entities: seq<seq<GamePacket>>, i: nat)
    requires i < |entities|
    ensures WithData(Collect(entities[..i + 1])) == WithData(Collect(entities[..i])) + WithData(entities[i])
  {
    assert entities[..i + 1][..i] == entities[..i];
    WithDataAppend(Collect(entities[..i]), entities[i]);
  }

  lemma {:induction false} OneMorePacket(ps: seq<GamePacket>, j: nat)
    requires j < |ps|
    ensures WithData(ps[..j + 1]) == WithData(ps[..j]) + if ps[j].data != [] then [ps[j]] else []
  {
    assert ps[..j + 1][..j] == ps[..j];
  }

  method CollectPackets(entities: seq<seq<GamePacket>>) returns (gamePackets: seq<GamePacket>)
    ensures gamePackets == WithData(Collect(entities))
  {
    gamePackets := [];
    for i := 0 to |entities|
      invariant gamePackets == WithData(Collect(entities[..i]))
    {
      var pkts := entities[i];
      ghost var before := gamePackets;
      for j := 0 to |pkts|
        invariant gamePackets == before + WithData(pkts[..j])
      {
        OneMorePacket(pkts, j);
        if |pkts[j].data| != 0 {
          gamePackets := gamePackets + [pkts[j]];
        }
      }
      assert pkts[..|pkts|] == pkts;
      OneMoreEntity(entities, i);
    }
    assert entities[..|entities|] == entities;
  }

  lemma {:induction false} StreamOfSnoc(ps: seq<GamePacket>, p: GamePacket, t: Word)
    requires Prints(p)
    ensures Stream(OfType(ps + [p], t)) == Stream(OfType(ps, t)) + if p.readType == t then Print(p)[1..] else []
  {
    OfTypeSnoc(ps, p, t);
    StreamSnoc(OfType(ps, t), p);
  }

  /** One more packet goes to the end of the vector of its read type. */
  lemma {:induction false} StreamGrows(prefix: seq<Word>, ps: seq<GamePacket>, i: nat, t: Word)
    requires i < |ps| && Prints(ps[i])
    ensures prefix + Stream(OfType(ps[..i + 1], t))
            == prefix + Stream(OfType(ps[..i], t)) + if ps[i].readType == t then Print(ps[i])[1..] else []
  {
    assert ps[..i + 1] == ps[..i] + [ps[i]];
    StreamOfSnoc(ps[..i], ps[i], t);
    Regrouped(prefix, Stream(OfType(ps[..i], t)), if ps[i].readType == t then Print(ps[i])[1..] else []);
  }

  lemma Regrouped(a: seq<Word>, b: seq<Word>, c: seq<Word>)
    ensures a + (b + c) == a + b + c
  {
  }

  /** The first word of a printed packet says where the others go. */
  method Printed(p: GamePacket) returns (readType: Word, words: seq<Word>)
    requires Prints(p)
    ensures readType == p.readType && words == Print(p)[1..]
  {
    var processedGamePacket := GetPacket(p);
    readType, words := processedGamePacket[0], processedGamePacket[1..];
  }

  /** The second loop of `writePacket`: each packet's words go to the vector of its read type. */
  method SplitPackets(gamePackets: seq<GamePacket>, snapshotPackets: seq<Word>, eventPackets: seq<Word>)
    returns (snapshots: seq<Word>, events: seq<Word>)
    requires forall p :: p in gamePackets ==> Prints(p)
    ensures snapshots == snapshotPackets + Stream(OfType(gamePackets, READ_SNAPSHOT))
    ensures events == eventPackets + Stream(OfType(gamePackets, READ_EVENT_CLIENT))
  {
    snapshots, events := snapshotPackets, eventPackets;
    for i := 0 to |gamePackets|
      invariant snapshots == snapshotPackets + Stream(OfType(gamePackets[..i], READ_SNAPSHOT))
      invariant events == eventPackets + Stream(OfType(gamePackets[..i], READ_EVENT_CLIENT))
    {
      var p := gamePackets[i];
      var readType, words := Printed(p);
      StreamGrows(snapshotPackets, gamePackets, i, READ_SNAPSHOT);
      StreamGrows(eventPackets, gamePackets, i, READ_EVENT_CLIENT);
      if readType == READ_SNAPSHOT {
        snapshots := snapshots + words;
      } else if readType == READ_EVENT_CLIENT {
        events := events + words;
      }
    }
    assert gamePackets[..|gamePackets|] == gamePackets;
  }

  /** `writePacket`, appending to the two vectors it is given. */
  method WritePacket(gameOpen: bool, entities: seq<seq<GamePacket>>, snapshotPackets: seq<Word>,
                     eventPackets: seq<Word>)
    returns (snapshots: seq<Word>, events: seq<Word>)
    requires Addressed(Collect(entities))
    ensures !gameOpen ==> snapshots == Terminated(snapshotPackets) && events == eventPackets
    ensures gameOpen ==>
              && snapshots == Terminated(snapshotPackets + Stream(OfType(Collect(entities), 0)))
              && events == Terminated(eventPackets + Stream(OfType(Collect(entities), 1)))
  {
    snapshots, events := snapshotPackets, eventPackets;
    if !gameOpen {
      if |snapshots| == 0 {
        return;
      }
      snapshots := snapshots + LastPacket();
      return;
    }
    var gamePackets := CollectPackets(entities);
    forall p | p in gamePackets
      ensures Prints(p)
    {
      WithDataMembers(Collect(entities), p);
    }
    snapshots, events := SplitPackets(gamePackets, snapshots, events);
    OfTypeWithData(Collect(entities), READ_SNAPSHOT);
    OfTypeWithData(Collect(entities), READ_EVENT_CLIENT);
    if |snapshots| != 0 {
      snapshots := snapshots + LastPacket();
    }
    if |events| != 0 {
      events := events + LastPacket();
    }
  }

  /** The stream of one read type, from empty outputs with the game open. */
  function StreamOfType(ps: seq<GamePacket>, t: Word): seq<Word> {
    Terminated(Stream(OfType(ps, t)))
  }

  lemma {:induction false} StreamIsEmptyExactly(ps: seq<GamePacket>)
    ensures Stream(ps) == [] <==> forall p :: p in ps ==> !Prints(p)
  {
    if ps != [] {
      StreamIsEmptyExactly(ps[1..]);
      assert ps == [ps[0]] + ps[1..];
      if Prints(ps[0]) {
        assert |Print(ps[0])| >= 4;
      }
    }
  }

  lemma {:induction false} OfTypeIsEmptyExactly(ps: seq<GamePacket>, t: Word)
    requires Addressed(ps)
    ensures Stream(OfType(ps, t)) == [] <==> OfType(ps, t) == []
  {
    var sub := OfType(ps, t);
    StreamIsEmptyExactly(sub);
    if sub != [] {
      OfTypeMembers(ps, t, sub[0]);
      assert Prints(sub[0]);
    }
  }

  /** The split is stable: each stream parses back to the packets of its read type, in their order, and
      one flag of the closing two stays behind. A stream is empty exactly if it has no packets. */
  lemma {:induction false} SplitIsStable(ps: seq<GamePacket>, t: Word)
    requires Sized(ps) && forall p :: p in ps && p.data != [] ==> SingleReader(p)
    ensures var words, sub := StreamOfType(ps, t), OfType(ps, t);
            && (words == [] <==> sub == [])
            && (words != [] ==> |words| >= 2 && words[|words| - 2..] == [0xFFFF_FFFF, 0xFFFF_FFFF])
            && Parse(words) == Parsed(AllDelivered(sub), if words == [] then [] else [PACKET_FLAG])
  {
    var sub := OfType(ps, t);
    OfTypeIsEmptyExactly(ps, t);
    forall p | p in sub
      ensures |p.data| < WORD_BOUND && SingleReader(p)
    {
      OfTypeMembers(ps, t, p);
    }
    ParseInvertsPrint(sub, [PACKET_FLAG]);
    assert LastPacket() == [PACKET_FLAG] + [PACKET_FLAG];
  }

  /** For arbitrary packets, what survives is what the parser can get past. */
  lemma {:induction false} SplitRecovers(ps: seq<GamePacket>, t: Word)
    requires Sized(ps) && Addressed(ps)
    ensures Parse(StreamOfType(ps, t)).Parsed? && Parse(StreamOfType(ps, t)).packets == Recovered(OfType(ps, t))
  {
    var sub := OfType(ps, t);
    OfTypeIsEmptyExactly(ps, t);
    forall p | p in sub
      ensures |p.data| < WORD_BOUND
    {
      OfTypeMembers(ps, t, p);
    }
    ParsePrinted(sub, [PACKET_FLAG]);
    assert LastPacket() == [PACKET_FLAG] + [PACKET_FLAG];
  }

  // ---------- readPacket ----------

  /** One `clientEntities[reader]->readPacket(packet, playerIndex)`. */
  datatype Call = Call(reader: Word, packet: GamePacket, playerIndex: Word)

  function CallsFor(p: GamePacket, readers: seq<Word>, playerIndex: Word): (calls: seq<Call>)
    ensures |calls| == |readers|
    ensures forall k :: 0 <= k < |readers| ==> calls[k] == Call(readers[k], p, playerIndex)
  {
    if readers == [] then []
    else CallsFor(p, readers[..|readers| - 1], playerIndex) + [Call(readers[|readers| - 1], p, playerIndex)]
  }

  function Calls(ps: seq<GamePacket>, playerIndex: Word): seq<Call> {
    if ps == [] then []
    else Calls(ps[..|ps| - 1], playerIndex) + CallsFor(ps[|ps| - 1], ps[|ps| - 1].readers, playerIndex)
  }

  /** Packet after packet. */
  lemma {:induction false} CallsAppend(ps: seq<GamePacket>, qs: seq<GamePacket>, playerIndex: Word)
    ensures Calls(ps + qs, playerIndex) == Calls(ps, playerIndex) + Calls(qs, playerIndex)
  {
    if qs == [] {
      assert ps + qs == ps;
    } else {
      var rest, q := qs[..|qs| - 1], qs[|qs| - 1];
      assert (ps + qs)[..|ps + qs| - 1] == ps + rest;
      CallsAppend(ps, rest, playerIndex);
      assert Calls(ps, playerIndex) + Calls(rest, playerIndex) + CallsFor(q, q.readers, playerIndex)
          == Calls(ps, playerIndex) + (Calls(rest, playerIndex) + CallsFor(q, q.readers, playerIndex));
    }
  }

  /** And reader after reader: each is called once, with the packet and the player index. */
  lemma {:induction false} CallsOfOne(p: GamePacket, playerIndex: Word)
    ensures var calls := Calls([p], playerIndex);
            && |calls| == |p.readers|
            && forall k :: 0 <= k < |calls| ==> calls[k] == Call(p.readers[k], p, playerIndex)
  {
    assert [p][..0] == [];
    assert [] + CallsFor(p, p.readers, playerIndex) == CallsFor(p, p.readers, playerIndex);
  }

  /** `readPacket`, with the calls it makes as its result. Reader indexes are not checked, as there. */
  method ReadPacket(gameOpen: bool, packets: seq<Word>, playerIndex: Word) returns (calls: seq<Call>)
    requires Parse(packets).Parsed?
    ensures calls == if gameOpen then Calls(Parse(packets).packets, playerIndex) else []
  {
    calls := [];
    if !gameOpen {
      return;
    }
    var parsed := PacketsToGamePackets(packets);
    var gamePackets := parsed.packets;
    for i := 0 to |gamePackets|
      invariant calls == Calls(gamePackets[..i], playerIndex)
    {
      var p := gamePackets[i];
      ghost var before := calls;
      assert gamePackets[..i + 1][..i] == gamePackets[..i];
      for j := 0 to |p.readers|
        invariant calls == before + CallsFor(p, p.readers[..j], playerIndex)
      {
        assert p.readers[..j + 1][..j] == p.readers[..j];
        calls := calls + [Call(p.readers[j], p, playerIndex)];
      }
      assert p.readers[..|p.readers|] == p.readers;
    }
    assert gamePackets[..|gamePackets|] == gamePackets;
  }
}
