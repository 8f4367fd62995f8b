/** What a client makes of the packets on its channel: all of them can be handled, and a game packet is
    unpacked and parsed into what its sender packed. */
module EndToEnd {
  import opened Words
  import opened Lists
  import opened Packets
  import opened Hubs
  import opened GameMessages
  import opened GamePackets
  import opened GameClient
  import opened ClientViews
  import opened ClientConnections
  import opened ClientStates
  import opened Clients
  import opened Relay
  import opened RelayTokens
  import opened RelayTraffic
  import opened RelayOrder
  import opened RelayTheorems
  import T = Transport
  import Framing

  // ---------- what is on a channel can be handled ----------

  lemma {:induction false} RegistersMember(es: seq<Entry>, c: Id)
    requires Registers(es, c) > 0
    ensures exists k :: 0 <= k < |es| && es[k].from == c
  {
    var last := |es| - 1;
    if es[last].from != c {
      RegistersMember(es[..last], c);
      var k :| 0 <= k < last && es[..last][k].from == c;
      assert es[k].from == c;
    }
  }

  lemma {:induction false} GamesOfMembers(ps: seq<Packet>, c: Id, p: Packet)
    ensures p in GamesOf(ps, c) <==> p in ps && IsGame(p.id) && Subject(p) == c
  {
    if ps != [] {
      var front, q := ps[..|ps| - 1], ps[|ps| - 1];
      GamesOfMembers(front, c, p);
      assert ps == front + [q];
    }
  }

  lemma SentIsGenuine(s: Sys, c: Id, p: Packet)
    requires Reachable(s) && c in s.peers && p in s.peers[c].up && IsGame(p.id)
    ensures SentBy(c, p)
  {
    ReachableInv(s);
    assert TrafficOk(s, c);
  }

  lemma SubjectIsPeer(s: Sys, d: Id, p: Packet)
    requires Reachable(s) && d in s.peers && d in s.hub.down && p in s.hub.down[d] && IsGame(p.id)
    ensures Subject(p) in s.peers && Subject(p) != d
  {
    PacketAt(s, d, p);
    GameOnWire(d, p);
    EnrolledIsPeer(s, Subject(p));
  }

  lemma EnrolledIsPeer(s: Sys, c: Id)
    requires Reachable(s) && s.done <= |s.inLog| && Enrolled(s, c) >= 1
    ensures c in s.peers
  {
    BaseAt(s);
    RegistersMember(s.inLog[..s.done], c);
  }

  /** Every game packet on a channel was built by the client whose id it ends with. */
  lemma GamesAreGenuine(s: Sys, d: Id, p: Packet)
    requires Reachable(s) && d in s.peers && d in s.hub.down && p in s.hub.down[d] && IsGame(p.id)
    ensures Subject(p) in s.peers && SentBy(Subject(p), p)
  {
    var c := Subject(p);
    SubjectIsPeer(s, d, p);
    RelayIsExact(s, d, c);
    GamesOfMembers(s.hub.down[d], c, p);
    GamesOfMembers(s.peers[c].up, c, p);
    MemberOfSuffix(InGames(s.inLog[..s.peers[d].born], c), GamesOf(s.hub.down[d], c), GamesOf(s.peers[c].up, c), p);
    SentIsGenuine(s, c, p);
  }

  lemma MemberOfSuffix(a: seq<Packet>, b: seq<Packet>, all: seq<Packet>, p: Packet)
    requires a + b <= all && p in b
    ensures p in all
  {
    var k :| 0 <= k < |b| && b[k] == p;
    assert all[|a| + k] == p;
  }

  /** A packet as the server puts it on a channel. */
  ghost predicate OnChannel(p: Packet) {
    || p == NewPacket(CLIENT_ACCEPTED)
    || (CarriesId(p.id) && p == IdPacket(p.id, Subject(p)))
    || (IsGame(p.id) && SentBy(Subject(p), p))
  }

  lemma ChannelPackets(s: Sys, d: Id, p: Packet)
    requires Reachable(s) && d in s.peers && d in s.hub.down && p in s.hub.down[d]
    ensures OnChannel(p)
  {
    TrafficAt(s, d);
    if IsGame(p.id) {
      GamesAreGenuine(s, d, p);
    } else if p == IdPacket(CLIENT_ASSIGN_ID, d) {
      IdPacketCarries(CLIENT_ASSIGN_ID, d);
    }
  }

  /** What a client receives for it never makes `handlePacket` pop below the body, and does to its
      membership what the packet that was sent would do. */
  lemma ReceivedIsPoppable(p: Packet, got: Packet, ps: seq<PeerEntry>, v: View)
    requires OnChannel(p) && ReceivedAs(p, got)
    ensures Poppable(ps, got) && Handle(v, got) == Handle(v, p)
  {
    if IsGame(p.id) {
      var words :| Fits(words) && words != [] && p == Pack(p.id, words, Subject(p));
      PackShape(p.id, words, Subject(p));
      RetrieveInvertsPack(p.id, words, Subject(p), NOT_FOUND);
    } else if p != NewPacket(CLIENT_ACCEPTED) {
      IdPacketCarries(p.id, Subject(p));
    }
  }

  const NEWBORN_STATE := ClientState(0, true, false, [], [])

  /** All of `ps` through `handlePacket`, in order; None where it would pop below a body. */
  function HandleStates(ps: seq<Packet>): Option<ClientState> {
    if ps == [] then Some(NEWBORN_STATE)
    else
      match HandleStates(ps[..|ps| - 1])
      case None => None
      case Some(c) =>
        if Indexable(c.peers) && Poppable(c.peers, ps[|ps| - 1]) then Some(HandleState(c, ps[|ps| - 1])) else None
  }

  /** `connections` never outgrows its 32-bit size type while `sent` is handled. */
  ghost predicate RostersFit(sent: seq<Packet>, n: nat)
    requires n <= |sent|
  {
    |HandleAll(NEWBORN, sent[..n]).roster| <= NOT_FOUND && (n > 0 ==> RostersFit(sent, n - 1))
  }

  lemma {:induction false} OneMoreHandled(before: seq<Packet>, p: Packet, gots: seq<Packet>, got: Packet)
    requires OnChannel(p) && ReceivedAs(p, got)
    requires HandleStates(gots).Some? && ViewOf(HandleStates(gots).value) == HandleAll(NEWBORN, before)
    requires |HandleAll(NEWBORN, before).roster| <= NOT_FOUND
    ensures HandleStates(gots + [got]).Some?
            && ViewOf(HandleStates(gots + [got]).value) == HandleAll(NEWBORN, before + [p])
  {
    var c := HandleStates(gots).value;
    ReceivedIsPoppable(p, got, c.peers, ViewOf(c));
    HandleStateRefinesView(c, got);
    HandleOne(NEWBORN, before, p);
    assert (gots + [got])[..|gots|] == gots;
  }

  /** A client that has received the first packets of a channel has handled them all, and believes what
      the packets as sent make it believe. */
  lemma {:induction false} ReceivedAreHandled(sent: seq<Packet>, got: seq<Packet>, n: nat)
    requires n <= |got| && n <= |sent| && RostersFit(sent, n)
    requires forall i :: 0 <= i < n ==> OnChannel(sent[i]) && ReceivedAs(sent[i], got[i])
    ensures HandleStates(got[..n]).Some? && ViewOf(HandleStates(got[..n]).value) == HandleAll(NEWBORN, sent[..n])
  {
    if n > 0 {
      ReceivedAreHandled(sent, got, n - 1);
      OneMoreHandled(sent[..n - 1], sent[n - 1], got[..n - 1], got[n - 1]);
      TakeOneMore(sent, n - 1);
      TakeOneMore(got, n - 1);
    }
  }

  /** The link from the server to client `d`: what it was given to send starts with the channel of `d`. */
  ghost predicate Carries(net: T.Net, s: Sys, d: Id) {
    T.OrderlyReachable(net) && d in s.hub.down && s.hub.down[d] <= net.snd.sends
  }

  lemma {:induction false} LinkIsHandled(net: T.Net, s: Sys, d: Id, n: nat)
    requires Reachable(s) && d in s.peers && Carries(net, s, d)
    requires n <= |net.rcv.got| && n <= |s.hub.down[d]| && RostersFit(s.hub.down[d], n)
    ensures HandleStates(net.rcv.got[..n]).Some?
    ensures ViewOf(HandleStates(net.rcv.got[..n]).value) == ViewAt(s, d, n)
  {
    var sent := s.hub.down[d];
    Framing.FramingIsCorrect(net);
    forall i | 0 <= i < n
      ensures OnChannel(sent[i]) && ReceivedAs(sent[i], net.rcv.got[i])
    {
      ChannelPackets(s, d, sent[i]);
      assert sent[i] == net.snd.sends[i];
    }
    ReceivedAreHandled(sent, net.rcv.got, n);
  }

  // ---------- the codec ----------

  /** The read type whose stream travels as a packet of this kind. */
  function ReadTypeOf(kind: Word): Word {
    if kind == GAME_SNAPSHOT then READ_SNAPSHOT else READ_EVENT_CLIENT
  }

  /** One read per packet, by its one reader, tagged with the player index. */
  ghost predicate CallsAre(calls: seq<Call>, ps: seq<GamePacket>, index: Word) {
    && |calls| == |ps|
    && forall j :: 0 <= j < |ps| ==> ps[j].readers != [] && calls[j] == Call(ps[j].readers[0], Delivered(ps[j]), index)
  }

  lemma {:induction false} CallsOfSingles(ps: seq<GamePacket>, qs: seq<GamePacket>, index: Word)
    requires |qs| == |ps| && forall j :: 0 <= j < |ps| ==> |ps[j].readers| == 1 && qs[j] == Delivered(ps[j])
    ensures CallsAre(Calls(qs, index), ps, index)
  {
    if ps != [] {
      var n := |ps| - 1;
      CallsOfSingles(ps[..n], qs[..n], index);
      assert |CallsFor(qs[n], qs[n].readers, index)| == 1;
    }
  }

  lemma {:induction false} AllDeliveredAre(ps: seq<GamePacket>)
    requires forall p :: p in ps ==> Prints(p)
    ensures |AllDelivered(ps)| == |ps|
    ensures forall j :: 0 <= j < |ps| ==> AllDelivered(ps)[j] == Delivered(ps[j])
  {
    if ps != [] {
      AllDeliveredAre(ps[1..]);
    }
  }

  /** Processing what was unpacked from a stream of `writePacket` reads the packets of its read type,
      each once and in order. */
  lemma {:induction false} StreamIsRead(gs: seq<GamePacket>, readType: Word, index: Word)
    requires Sized(gs) && forall p :: p in gs && p.data != [] ==> SingleReader(p)
    ensures CallsAre(CallsOf(true, StreamOfType(gs, readType) + [index]), OfType(gs, readType), index)
  {
    var words, sub := StreamOfType(gs, readType), OfType(gs, readType);
    SplitIsStable(gs, readType);
    assert (words + [index])[..|words|] == words;
    forall p | p in sub
      ensures Prints(p) && |p.readers| == 1
    {
      OfTypeMembers(gs, readType, p);
    }
    AllDeliveredAre(sub);
    CallsOfSingles(sub, AllDelivered(sub), index);
  }

  // ---------- one packet at its receiver ----------

  /** `p` is what client `c` made of the entity packets `gs`. */
  ghost predicate MadeOf(p: Packet, c: Id, gs: seq<GamePacket>) {
    && IsGame(p.id) && Sized(gs) && (forall g :: g in gs && g.data != [] ==> SingleReader(g))
    && var words := StreamOfType(gs, ReadTypeOf(p.id)); words != [] && Fits(words) && p == Pack(p.id, words, c)
  }

  /** What a round of the sending thread puts out for one kind of packets: nothing exactly if no entity has
      written data of that read type, and otherwise one packet, made of what the entities have written. */
  lemma RoundIsMade(kind: Word, gs: seq<GamePacket>, c: Id)
    requires kind == 8 || kind == 9
    requires Sized(gs) && forall g :: g in gs && g.data != [] ==> SingleReader(g)
    ensures var t := if kind == 8 then 0 else 1;
            var words := StreamOfType(gs, t);
            var sent := PackedIfAny(kind, words, c);
            && |sent| <= 1
            && (sent == [] <==> forall g :: g in gs && g.readType == t ==> g.data == [])
            && (sent != [] && Fits(words) ==> MadeOf(sent[0], c, gs))
  {
    var t := if kind == 8 then 0 else 1;
    var words := StreamOfType(gs, t);
    NoneOfType(gs, t);
    if words != [] && Fits(words) {
      PackShape(kind, words, c);
    }
  }

  lemma {:induction false} NoneOfType(gs: seq<GamePacket>, t: Word)
    requires forall g :: g in gs && g.data != [] ==> SingleReader(g)
    ensures StreamOfType(gs, t) == [] <==> forall g :: g in gs && g.readType == t ==> g.data == []
  {
    StreamIsEmptyExactly(OfType(gs, t));
    forall g: GamePacket
      ensures g in OfType(gs, t) <==> g in gs && g.readType == t && g.data != []
    {
      OfTypeMembers(gs, t, g);
    }
  }

  /** What a client in state `m` makes of the packet: if it knows the sender, processing reads exactly the
      packets of that read type among `gs`, in order, tagged with the sender's position; otherwise the
      packet is dropped. */
  ghost predicate ReadsAs(m: ClientState, p: Packet, c: Id, gs: seq<GamePacket>, known: bool) {
    && IsGame(p.id) && Indexable(m.peers) && Poppable(m.peers, p)
    && var words, i := Retrieved(m.peers, p), IndexOf(m.peers, c);
       if !known then words == []
       else
         && i < |m.peers| && m.peers[i].id == c
         && words == StreamOfType(gs, ReadTypeOf(p.id)) + [i]
         && CallsAre(CallsOf(true, words), OfType(gs, ReadTypeOf(p.id)), i)
  }

  lemma Unpacked(m: ClientState, p: Packet, c: Id, gs: seq<GamePacket>)
    requires MadeOf(p, c, gs) && Indexable(m.peers) && Poppable(m.peers, p)
    ensures ReadsAs(m, p, c, gs, c in Ids(m.peers))
  {
    var words := StreamOfType(gs, ReadTypeOf(p.id));
    IndexOfIsFirst(m.peers, c);
    RetrieveInvertsPack(p.id, words, c, IndexOf(m.peers, c));
    if c in Ids(m.peers) {
      StreamIsRead(gs, ReadTypeOf(p.id), IndexOf(m.peers, c));
    }
  }

  lemma ChannelGamePoppable(s: Sys, d: Id, p: Packet, ps: seq<PeerEntry>)
    requires Reachable(s) && d in s.peers && d in s.hub.down && p in s.hub.down[d] && IsGame(p.id)
    ensures Poppable(ps, p) && p.size > 0 && Subject(p) in s.peers && Subject(p) != d
  {
    ChannelPackets(s, d, p);
    GamesAreGenuine(s, d, p);
    SubjectIsPeer(s, d, p);
    SentByShape(Subject(p), p);
    ReceivedIsPoppable(p, p, ps, NEWBORN);
  }

  lemma {:induction false} RostersFitAt(sent: seq<Packet>, n: nat)
    requires n <= |sent| && RostersFit(sent, n)
    ensures |HandleAll(NEWBORN, sent[..n]).roster| <= NOT_FOUND
  {
  }
}
