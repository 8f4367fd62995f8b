/** NetworkClient/Client.cpp on values: the client's own state, its peers with their snapshot stacks and
    its event queue, and what `handlePacket` does to all of them. */
module ClientStates {
  import opened Words
  import opened Packets
  import opened GameMessages
  import opened ClientViews
  import opened ClientConnections

  datatype ClientState = ClientState(id: Word, waiting: bool, stopped: bool, peers: seq<PeerEntry>,
    events: seq<seq<Word>>)

  /** What the membership protocol sees of it. */
  function ViewOf(c: ClientState): View {
    View(c.id, c.waiting, c.stopped, Ids(c.peers))
  }

  predicate CarriesId(t: Word) {
    t == CLIENT_ASSIGN_ID || t == GAME_ADD_CLIENT || t == GAME_REMOVE_CLIENT
  }

  /** The body is as long as the pops of `handlePacket` take it to be. */
  predicate Poppable(ps: seq<PeerEntry>, p: Packet) {
    && (CarriesId(p.id) || IsGame(p.id) ==> 4 <= |p.body|)
    && (IsGame(p.id) && IndexOf(ps, PopWord(p)) != NOT_FOUND ==> Retrievable(p))
  }

  /** `retrieveGameMsgs`. */
  function Retrieved(ps: seq<PeerEntry>, p: Packet): seq<Word>
    requires Indexable(ps) && IsGame(p.id) && Poppable(ps, p)
  {
    IndexOfIsFirst(ps, PopWord(p));
    if IndexOf(ps, PopWord(p)) == NOT_FOUND then [] else Retrieve(p, IndexOf(ps, PopWord(p)))
  }

  function Added(c: ClientState, id: Word): ClientState {
    if id == c.id then c.(waiting := false) else c.(peers := ClientConnections.Added(c.peers, id))
  }

  function Removed(c: ClientState, id: Word): ClientState {
    if id == c.id then c.(stopped := true) else c.(peers := ClientConnections.Removed(c.peers, id))
  }

  function Snapshot(c: ClientState, words: seq<Word>): ClientState
    requires words != [] ==> words[|words| - 1] < |c.peers|
  {
    if words == [] then c else c.(peers := Pushed(c.peers, words[|words| - 1], words))
  }

  function Event(c: ClientState, words: seq<Word>): ClientState {
    if words == [] then c else c.(events := c.events + [words])
  }

  /** `handlePacket`. */
  function HandleState(c: ClientState, p: Packet): ClientState
    requires Indexable(c.peers) && Poppable(c.peers, p)
  {
    if p.id == CLIENT_ASSIGN_ID then c.(id := PopWord(p))
    else if p.id == GAME_ADD_CLIENT then Added(c, PopWord(p))
    else if p.id == GAME_REMOVE_CLIENT then Removed(c, PopWord(p))
    else if p.id == GAME_SNAPSHOT then
      RetrievedIsTagged(c.peers, p);
      Snapshot(c, Retrieved(c.peers, p))
    else if p.id == GAME_EVENT_CLIENT then Event(c, Retrieved(c.peers, p))
    else c
  }

  /** What is retrieved ends with the position of its sender, or is empty when there is no such peer. */
  lemma RetrievedIsTagged(ps: seq<PeerEntry>, p: Packet)
    requires Indexable(ps) && IsGame(p.id) && Poppable(ps, p)
    ensures var words := Retrieved(ps, p);
            if PopWord(p) !in Ids(ps) then words == []
            else
              && words != [] && words[|words| - 1] == IndexOf(ps, PopWord(p)) < |ps|
              && ps[words[|words| - 1]].id == PopWord(p)
  {
    IndexOfIsFirst(ps, PopWord(p));
  }

  lemma PushedIds(ps: seq<PeerEntry>, index: nat, packet: seq<Word>)
    requires index < |ps|
    ensures Ids(Pushed(ps, index, packet)) == Ids(ps)
  {
  }

  /** Handling refines the membership view: whatever the packet, the ids in `connections` and the flags
      move as the membership protocol says, and snapshots and events never touch them. */
  lemma HandleStateRefinesView(c: ClientState, p: Packet)
    requires Indexable(c.peers) && Poppable(c.peers, p)
    ensures ViewOf(HandleState(c, p)) == Handle(ViewOf(c), p)
  {
    if p.id == GAME_ADD_CLIENT {
      AddedIds(c.peers, PopWord(p));
    } else if p.id == GAME_REMOVE_CLIENT {
      RemovedIds(c.peers, PopWord(p));
    } else if p.id == GAME_SNAPSHOT {
      RetrievedIsTagged(c.peers, p);
      var words := Retrieved(c.peers, p);
      if words != [] {
        PushedIds(c.peers, words[|words| - 1], words);
      }
    }
  }
}

/** The client object: the handlers and the processing loop in place. */
module Clients {
  import opened Words
  import opened Packets
  import opened TsQueues
  import opened Connections
  import opened GameMessages
  import opened GamePackets
  import opened GameClient
  import opened ClientViews
  import opened ClientConnections
  import S = ClientStates
  import T = Transport
  import Relay

  /** The reads that `processEachPacket` makes: the last word of each nonempty vector is the player index. */
  function AllCalls(gameOpen: bool, packets: seq<seq<Word>>): seq<Call> {
    if packets == [] then []
    else AllCalls(gameOpen, packets[..|packets| - 1]) + CallsOf(gameOpen, packets[|packets| - 1])
  }

  function CallsOf(gameOpen: bool, packet: seq<Word>): seq<Call> {
    if packet == [] || !gameOpen || !Parse(packet[..|packet| - 1]).Parsed? then []
    else Calls(Parse(packet[..|packet| - 1]).packets, packet[|packet| - 1])
  }

  lemma {:induction false} AllCallsOne(gameOpen: bool, packets: seq<seq<Word>>, packet: seq<Word>, more: seq<Call>)
    requires more == CallsOf(gameOpen, packet)
    ensures AllCalls(gameOpen, packets + [packet]) == AllCalls(gameOpen, packets) + more
  {
    assert (packets + [packet])[..|packets|] == packets;
  }

  /** With the game closed nobody is called, whatever has come in. */
  lemma {:induction false} ClosedGameCallsNobody(packets: seq<seq<Word>>)
    ensures AllCalls(false, packets) == []
  {
    if packets != [] {
      ClosedGameCallsNobody(packets[..|packets| - 1]);
    }
  }

  /** With the game open the last word of a vector is the player index, and the others are parsed. */
  lemma {:induction false} OpenGameCalls(words: seq<Word>, playerIndex: Word)
    requires Parse(words).Parsed?
    ensures AllCalls(true, [words + [playerIndex]]) == Calls(Parse(words).packets, playerIndex)
    ensures AllCalls(true, [[]]) == []
  {
    var packet, nothing: seq<Word> := words + [playerIndex], [];
    assert packet[..|packet| - 1] == words;
    assert [] + [packet] == [packet] && [] + [nothing] == [nothing];
    AllCallsOne(true, [], packet, CallsOf(true, packet));
    AllCallsOne(true, [], nothing, []);
    assert [] + CallsOf(true, packet) == CallsOf(true, packet);
  }

  lemma CallsRegroup(a: seq<Call>, b: seq<Call>, c: seq<Call>)
    ensures a + b + c == a + (b + c)
  {
  }

  lemma SnocInside(a: seq<seq<Word>>, b: seq<seq<Word>>, packet: seq<Word>)
    ensures a + (b + [packet]) == a + b + [packet]
  {
  }

  /** Processing one result of `getAllPackets` makes all calls for its events before any for its snapshots. */
  lemma {:induction false} EventsComeFirst(gameOpen: bool, events: seq<seq<Word>>, snapshots: seq<seq<Word>>)
    ensures AllCalls(gameOpen, events + snapshots) == AllCalls(gameOpen, events) + AllCalls(gameOpen, snapshots)
  {
    if snapshots == [] {
      assert events + snapshots == events;
    } else {
      var front, last := snapshots[..|snapshots| - 1], snapshots[|snapshots| - 1];
      var more := CallsOf(gameOpen, last);
      assert snapshots == front + [last];
      SnocInside(events, front, last);
      EventsComeFirst(gameOpen, events, front);
      AllCallsOne(gameOpen, events + front, last, more);
      AllCallsOne(gameOpen, front, last, more);
      CallsRegroup(AllCalls(gameOpen, events), AllCalls(gameOpen, front), more);
    }
  }

  function PackedIfAny(kind: Word, words: seq<Word>, sender: Word): seq<Packet> {
    if words == [] then [] else [Pack(kind, words, sender)]
  }

  class Client {
    var clientID: Word
    var waitingForConnection: bool
    var stopThreads: bool
    var gameEventPackets: seq<seq<Word>>
    const registry: Registry
    const connection: Connection
    const incoming: TsQueue<OwnedPacket>

    ghost predicate Valid()
      reads this, registry
    {
      registry.Valid()
    }

    ghost function State(): S.ClientState
      reads this, registry, registry.connections
    {
      S.ClientState(clientID, waitingForConnection, stopThreads, registry.Value(), gameEventPackets)
    }

    /** After a successful connect. */
    constructor (connection: Connection, incoming: TsQueue<OwnedPacket>)
      ensures Valid() && State() == S.ClientState(0, true, false, [], []) && S.ViewOf(State()) == NEWBORN
      ensures this.connection == connection && this.incoming == incoming && fresh(registry)
    {
      clientID, waitingForConnection, stopThreads, gameEventPackets := 0, true, false, [];
      this.connection, this.incoming := connection, incoming;
      registry := new Registry();
    }

    /** `Send` of client_interface. */
    method Send(p: Packet)
      modifies connection`posted, connection`sends
      ensures connection.Sending() ==
              if connection.isOpen then T.PostSend(old(connection.Sending()), p) else old(connection.Sending())
    {
      var connected := connection.IsConnected();
      if connected {
        connection.Send(p);
      }
    }

    method SendSpecificPacket(packets: seq<Word>, packetType: Word)
      requires |packets| < WORD_BOUND
      modifies connection`posted, connection`sends
      ensures connection.isOpen ==> connection.sends == old(connection.sends) + [Pack(packetType, packets, clientID)]
      ensures !connection.isOpen ==> connection.sends == old(connection.sends)
    {
      var pkt := PackPacket(packets, packetType, clientID);
      Send(Packet(pkt.id, pkt.size, pkt.body));
    }

    // ---------- the handlers ----------

    method HandleClientAccepted()
      modifies connection`posted, connection`sends
      ensures connection.sends ==
              old(connection.sends) + if connection.isOpen then Relay.Replies(NewPacket(CLIENT_ACCEPTED)) else []
    {
      Send(NewPacket(CLIENT_REGISTER));
    }

    method HandleClientAssignID(pkt: PacketBuffer)
      requires 4 <= |pkt.body|
      modifies pkt, this`clientID
      ensures State() == old(State()).(id := PopWord(old(pkt.Value())))
    {
      clientID := pkt.PopU32();
    }

    method HandleGameAddClient(pkt: PacketBuffer)
      requires Valid() && 4 <= |pkt.body|
      modifies pkt, this`waitingForConnection, registry
      ensures Valid() && State() == S.Added(old(State()), PopWord(old(pkt.Value())))
    {
      var addedClientID := pkt.PopU32();
      if addedClientID == clientID {
        waitingForConnection := false;
      } else {
        registry.AddClient(addedClientID);
      }
    }

    method HandleGameRemoveClient(pkt: PacketBuffer)
      requires Valid() && 4 <= |pkt.body| && Indexable(registry.Value())
      modifies pkt, this`stopThreads, registry, registry.connections
      ensures Valid() && State() == S.Removed(old(State()), PopWord(old(pkt.Value())))
    {
      var removeClientID := pkt.PopU32();
      if removeClientID == clientID {
        stopThreads := true;
      } else {
        var found := registry.RemoveClient(removeClientID);
      }
    }

    method RetrieveGameMsgs(pkt: PacketBuffer) returns (gameMsgs: seq<Word>)
      requires Valid() && Indexable(registry.Value()) && IsGame(pkt.id) && S.Poppable(registry.Value(), pkt.Value())
      modifies pkt
      ensures gameMsgs == S.Retrieved(registry.Value(), old(pkt.Value()))
    {
      var connectedID := pkt.PopU32();
      var clientIndex := registry.GetClientIndex(connectedID);
      IndexOfIsFirst(registry.Value(), connectedID);
      if clientIndex == NOT_FOUND {
        return [];
      }
      var gameMsgSize := pkt.PopU32();
      gameMsgs := PopAll(pkt, gameMsgSize);
      gameMsgs := gameMsgs + [clientIndex];
    }

    method HandleGameSnapshot(pkt: PacketBuffer)
      requires Valid() && Indexable(registry.Value()) && pkt.id == GAME_SNAPSHOT
               && S.Poppable(registry.Value(), pkt.Value())
      modifies pkt, registry.connections
      ensures Valid() && State() == S.HandleState(old(State()), old(pkt.Value()))
    {
      S.RetrievedIsTagged(registry.Value(), pkt.Value());
      var gameMsgs := RetrieveGameMsgs(pkt);
      if |gameMsgs| != 0 {
        registry.PushTo(gameMsgs[|gameMsgs| - 1], gameMsgs);
      }
    }

    method PushEventPacket(packet: seq<Word>)
      modifies this`gameEventPackets
      ensures gameEventPackets == old(gameEventPackets) + [packet]
    {
      gameEventPackets := gameEventPackets + [packet];
    }

    method HandleGameEventClient(pkt: PacketBuffer)
      requires Valid() && Indexable(registry.Value()) && pkt.id == GAME_EVENT_CLIENT
               && S.Poppable(registry.Value(), pkt.Value())
      modifies pkt, this`gameEventPackets
      ensures Valid() && State() == S.HandleState(old(State()), old(pkt.Value()))
    {
      var gameMsgs := RetrieveGameMsgs(pkt);
      if |gameMsgs| != 0 {
        PushEventPacket(gameMsgs);
      }
    }

    /** Dispatch on the packet type; Accepted is the only one that is answered. */
    method HandlePacket(pkt: PacketBuffer)
      requires Valid() && Indexable(registry.Value()) && S.Poppable(registry.Value(), pkt.Value())
      modifies pkt, this, registry, registry.connections, connection`posted, connection`sends
      ensures Valid() && State() == S.HandleState(old(State()), old(pkt.Value()))
      ensures connection.sends ==
              old(connection.sends) + if connection.isOpen then Relay.Replies(old(pkt.Value())) else []
    {
      if pkt.id == CLIENT_ACCEPTED {
        HandleClientAccepted();
      } else if pkt.id == CLIENT_ASSIGN_ID {
        HandleClientAssignID(pkt);
      } else if pkt.id == GAME_ADD_CLIENT {
        HandleGameAddClient(pkt);
      } else if pkt.id == GAME_REMOVE_CLIENT {
        HandleGameRemoveClient(pkt);
      } else if pkt.id == GAME_SNAPSHOT {
        HandleGameSnapshot(pkt);
      } else if pkt.id == GAME_EVENT_CLIENT {
        HandleGameEventClient(pkt);
      }
    }

    // ---------- the processing thread ----------

    method GetGameEventPackets() returns (packets: seq<seq<Word>>)
      modifies this`gameEventPackets
      ensures packets == old(gameEventPackets) && gameEventPackets == []
    {
      packets := [];
      while |gameEventPackets| != 0
        invariant packets + gameEventPackets == old(gameEventPackets)
        decreases |gameEventPackets|
      {
        packets := packets + [gameEventPackets[0]];
        gameEventPackets := gameEventPackets[1..];
      }
    }

    /** Events first, then the newest snapshot of every peer. */
    method GetAllPackets() returns (allPackets: seq<seq<Word>>)
      requires Valid()
      modifies this`gameEventPackets, registry.connections
      ensures Valid() && allPackets == old(State()).events + Tops(old(State()).peers)
      ensures State() == old(State()).(events := [], peers := Cleared(old(State()).peers))
    {
      var eventPackets := GetGameEventPackets();
      var statePackets := registry.GetAllStatePackets();
      allPackets := eventPackets + statePackets;
    }

    method ProcessEachPacket(gameOpen: bool, allPackets: seq<seq<Word>>) returns (calls: seq<Call>)
      requires forall packet :: packet in allPackets && packet != [] ==> Parse(packet[..|packet| - 1]).Parsed?
      ensures calls == AllCalls(gameOpen, allPackets)
      ensures !gameOpen ==> calls == []
    {
      ClosedGameCallsNobody(allPackets);
      calls := [];
      for i := 0 to |allPackets|
        invariant calls == AllCalls(gameOpen, allPackets[..i])
      {
        var packet := allPackets[i];
        assert allPackets[..i + 1][..i] == allPackets[..i];
        if |packet| != 0 {
          var clientIndex := packet[|packet| - 1];
          var more := ReadPacket(gameOpen, packet[..|packet| - 1], clientIndex);
          calls := calls + more;
        }
      }
      assert allPackets[..|allPackets|] == allPackets;
    }

    /** One round of `processPacket`. While the client waits to be accepted into the game it is skipped. */
    method ProcessPacketRound(gameOpen: bool) returns (calls: seq<Call>)
      requires Valid()
      requires forall packet :: packet in gameEventPackets + Tops(registry.Value()) && packet != [] ==>
                 Parse(packet[..|packet| - 1]).Parsed?
      modifies this`gameEventPackets, registry.connections
      ensures Valid()
      ensures stopThreads || !connection.isOpen || waitingForConnection ==> calls == [] && State() == old(State())
      ensures !(stopThreads || !connection.isOpen || waitingForConnection) ==>
                && calls == AllCalls(gameOpen, old(State()).events + Tops(old(State()).peers))
                && State() == old(State()).(events := [], peers := Cleared(old(State()).peers))
    {
      calls := [];
      var connected := connection.IsConnected();
      if stopThreads || !connected || waitingForConnection {
        return;
      }
      var allPackets := GetAllPackets();
      if |allPackets| == 0 {
        return;
      }
      calls := ProcessEachPacket(gameOpen, allPackets);
    }

    /** One round of `sendPacket`: what the entities have written goes out as one packet a kind, the snapshots
        before the events, and neither without a word in it. */
    method SendPacketRound(gameOpen: bool, entities: seq<seq<GamePacket>>)
      requires Addressed(Collect(entities))
      requires |StreamOfType(Collect(entities), READ_SNAPSHOT)| < WORD_BOUND
      requires |StreamOfType(Collect(entities), READ_EVENT_CLIENT)| < WORD_BOUND
      modifies connection`posted, connection`sends
      ensures connection.sends ==
              old(connection.sends) +
              if stopThreads || !connection.isOpen || waitingForConnection || !gameOpen then []
              else PackedIfAny(8, StreamOfType(Collect(entities), 0), clientID)
                   + PackedIfAny(9, StreamOfType(Collect(entities), 1), clientID)
    {
      var connected := connection.IsConnected();
      if stopThreads || !connected {
        return;
      }
      if !waitingForConnection {
        var snapshotPackets, eventPackets := WritePacket(gameOpen, entities, [], []);
        assert [] + Stream(OfType(Collect(entities), 0)) == Stream(OfType(Collect(entities), 0));
        assert [] + Stream(OfType(Collect(entities), 1)) == Stream(OfType(Collect(entities), 1));
        if |snapshotPackets| != 0 {
          SendSpecificPacket(snapshotPackets, GAME_SNAPSHOT);
        }
        if |eventPackets| != 0 {
          SendSpecificPacket(eventPackets, GAME_EVENT_CLIENT);
        }
      }
    }
  }
}
