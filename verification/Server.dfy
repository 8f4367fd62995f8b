/** NetworkServer/Server.cpp over NetworkManager/server_interface.h: the server object. Its methods update
    the vectors and the connections in place; each is proved to compute the Hub operation of its name. */
module Servers {
  import opened Words
  import opened Lists
  import opened Packets
  import opened TsQueues
  import opened Connections
  import opened Hubs
  import opened Relay
  import T = Transport
  import Handshake

  /** The entries of m_deqConnections by id: those of the first `i` whose id is in `gone` are reset. */
  ghost predicate Walked(conns: seq<Connection?>, all: map<Word, Connection>, ids: seq<Word>, gone: set<Word>, i: nat) {
    && |conns| == |ids|
    && forall k :: 0 <= k < |ids| ==> ids[k] in all && conns[k] == if k < i && ids[k] in gone then null else all[ids[k]]
  }

  ghost predicate Shows(conns: seq<Connection?>, all: map<Word, Connection>, ids: seq<Word>) {
    && |conns| == |ids|
    && forall k :: 0 <= k < |ids| ==> ids[k] in all && conns[k] == all[ids[k]]
  }

  function WithoutNulls(s: seq<Connection?>): seq<Connection?> {
    if s == [] then []
    else WithoutNulls(s[..|s| - 1]) + if s[|s| - 1] != null then [s[|s| - 1]] else []
  }

  /** What erasing the reset entries leaves is what dropping their ids leaves. */
  lemma {:induction false} ErasedEntries(conns: seq<Connection?>, all: map<Word, Connection>, ids: seq<Word>,
    gone: set<Word>)
    requires Walked(conns, all, ids, gone, |ids|)
    ensures Shows(WithoutNulls(conns), all, Drop(ids, gone))
  {
    if ids != [] {
      var n := |ids| - 1;
      ErasedEntries(conns[..n], all, ids[..n], gone);
    }
  }

  lemma {:induction false} SendEachNext(h: Hub, ids: seq<Word>, i: nat, p: Packet, skip: Option<Word>)
    requires i < |ids|
    ensures var before, c := SendEach(h, ids[..i], p, skip), ids[i];
            SendEach(h, ids[..i + 1], p, skip) ==
            if c !in h.open then Disconnect(before, c) else if skip == Some(c) then before else Sent(before, c, p)
  {
    assert ids[..i + 1][..i] == ids[..i];
  }

  lemma {:induction false} ReceiveNext(h: Hub, es: seq<Entry>, i: nat)
    requires AllWalkable(h, es) && i < |es|
    ensures Walkable(ReceiveAll(h, es[..i]), es[i].from, es[i].packet)
    ensures ReceiveAll(h, es[..i + 1]) == Receive(ReceiveAll(h, es[..i]), es[i].from, es[i].packet)
    ensures es[i..] != [] && es[i..][0] == es[i] && es[i..][1..] == es[i + 1..]
  {
    assert es[..i + 1][..i] == es[..i];
  }

  /** A packet carrying one id, built with the stream operator. */
  method BuildIdPacket(t: Word, x: Word) returns (p: Packet)
    ensures p == IdPacket(t, x)
  {
    var pkt := new PacketBuffer(t);
    pkt.PushU32(x);
    p := Packet(pkt.id, pkt.size, pkt.body);
  }

  /** Several packets through OnRecievePacket, in queue order. */
  ghost function ReceiveAll(h: Hub, es: seq<Entry>): Hub {
    if es == [] then h
    else
      var last := es[|es| - 1];
      Receive(ReceiveAll(h, es[..|es| - 1]), last.from, last.packet)
  }

  ghost predicate AllWalkable(h: Hub, es: seq<Entry>) {
    forall i :: 0 <= i < |es| ==> Walkable(ReceiveAll(h, es[..i]), es[i].from, es[i].packet)
  }

  ghost predicate AllReady(h: Hub, es: seq<Entry>) {
    forall i :: 0 <= i < |es| ==> Ready(ReceiveAll(h, es[..i]), es[i].from, es[i].packet)
  }

  lemma {:induction false} ReadyStaysOk(h: Hub, es: seq<Entry>, i: nat)
    requires HubOk(h) && AllReady(h, es) && i <= |es|
    ensures HubOk(ReceiveAll(h, es[..i]))
  {
    if i > 0 {
      ReadyStaysOk(h, es, i - 1);
      assert es[..i][..i - 1] == es[..i - 1];
      ReceiveEffect(ReceiveAll(h, es[..i - 1]), es[i - 1].from, es[i - 1].packet);
    }
  }

  /** Queues of packets that the protocol delivers are handled, and leave the vectors in order. */
  lemma {:induction false} ReadyQueuesAreHandled(h: Hub, es: seq<Entry>)
    requires HubOk(h) && AllReady(h, es)
    ensures AllWalkable(h, es) && HubOk(ReceiveAll(h, es))
  {
    forall i | 0 <= i < |es|
      ensures Walkable(ReceiveAll(h, es[..i]), es[i].from, es[i].packet)
    {
      ReadyStaysOk(h, es, i);
      ReadyIsWalkable(ReceiveAll(h, es[..i]), es[i].from, es[i].packet);
    }
    ReadyStaysOk(h, es, |es|);
    assert es[..|es|] == es;
  }

  /** One round of the flush; the vector it walks stays as it was. */
  lemma FlushNext(h: Hub, i: nat)
    requires h.garbage != [] && FlushDefined(h) && i < |h.garbage|
    ensures FlushEach(h, h.garbage[..i + 1])
            == SendAll(FlushEach(h, h.garbage[..i]), IdPacket(GAME_REMOVE_CLIENT, h.garbage[i]), None)
    ensures FlushEach(h, h.garbage[..i + 1]).garbage == h.garbage
  {
    assert h.garbage[..i + 1][..i] == h.garbage[..i];
    QuietFlushEach(h, h.garbage[..i + 1]);
  }

  /** One round of the closing loop of a registration; the vector it walks stays as it was. */
  lemma {:induction false} IntroduceNext(h: Hub, c: Word, i: nat)
    requires i < |h.clients| && (c in h.open || c !in h.clients) && c in h.down
    ensures Introduce(h, c, h.clients[..i + 1])
            == SendTo(Introduce(h, c, h.clients[..i]), c, IdPacket(GAME_ADD_CLIENT, h.clients[i]))
    ensures Introduce(h, c, h.clients[..i + 1]).clients == h.clients
  {
    assert h.clients[..i + 1][..i] == h.clients[..i];
    if c in h.open {
      IntroduceOpen(h, c, h.clients[..i + 1]);
    } else {
      IntroduceClosed(h, c, h.clients[..i + 1]);
    }
  }

  class Server {
    var clientsIDs: seq<Word>
    var garbageIDs: seq<Word>
    var deqConnections: seq<Connection?>
    var idCounter: Word
    const messagesIn: TsQueue<OwnedPacket>

    /** Every connection ever approved, by id; the same connections as a set; the ids in the deque. */
    ghost var all: map<Word, Connection>
    ghost var repr: set<Connection>
    ghost var dequeIds: seq<Word>

    ghost predicate Valid()
      reads this, repr`id
    {
      Indexed() && Shows(deqConnections, all, dequeIds) && NoDup(dequeIds)
    }

    ghost predicate Indexed()
      reads this`all, this`repr, this`idCounter, repr`id
    {
      forall x :: x in all ==> all[x] in repr && all[x].id == x && x < idCounter
    }

    ghost predicate Known(c: Connection?)
      reads this`all, this`repr, repr`id
    {
      c in repr && c.id in all && all[c.id] == c
    }

    /** The connections whose socket is open. */
    ghost function Open(): set<Word>
      reads this`all, this`repr, repr`isOpen
    {
      set i | i in all && all[i] in repr && all[i].isOpen
    }

    /** Everything sent to each connection. */
    ghost function Logs(): map<Word, seq<Packet>>
      reads this`all, this`repr, repr`sends
    {
      map i | i in all && all[i] in repr :: all[i].sends
    }

    /** The hub this object stands for. */
    ghost function Model(): Hub
      reads this`clientsIDs, this`garbageIDs, this`dequeIds, this`all, this`repr, repr`isOpen, repr`sends
    {
      Hub(clientsIDs, garbageIDs, dequeIds, Open(), Logs())
    }

    constructor ()
      ensures Valid() && Model() == Hub([], [], [], {}, map[]) && idCounter == 10000
      ensures fresh(messagesIn) && messagesIn.deqQueue == []
    {
      clientsIDs, garbageIDs, deqConnections, idCounter := [], [], [], FIRST_ID;
      messagesIn := new TsQueue<OwnedPacket>();
      all, repr, dequeIds := map[], {}, [];
    }

    /** The accept handler: OnClientConnect decides, an approved connection gets the next id. */
    method OnAccept(clock: bv64) returns (approved: bool)
      requires Valid() && idCounter + 1 < WORD_BOUND
      modifies this`deqConnections, this`idCounter, this`all, this`repr, this`dequeIds
      ensures Valid() && approved == (|clientsIDs| < 8)
      ensures !approved ==> Model() == old(Model()) && idCounter == old(idCounter)
      ensures approved ==>
                var h, id := old(Model()), old(idCounter);
                && idCounter == id + 1
                && Model() == h.(deque := h.deque + [id], open := h.open + {id}, down := h.down[id := []])
                && id in all && fresh(all[id]) && all[id].handshakeOut == clock
                && all[id].handshakeCheck == Handshake.Scramble(clock)
                && all[id].writes == [T.Greet(Handshake.Image(clock))]
    {
      approved := OnClientConnect();
      if approved {
        var newconn := new Connection(ServerSide, clock, messagesIn);
        Admit(newconn);
      }
    }

    /** push_back, and the next id for the connection at the back. */
    method Admit(newconn: Connection)
      requires Valid() && idCounter + 1 < WORD_BOUND
      requires newconn !in repr && newconn.owner == ServerSide && newconn.isOpen && newconn.sends == []
      modifies this`deqConnections, this`idCounter, this`all, this`repr, this`dequeIds, newconn`id, newconn`writes
      ensures Valid() && idCounter == old(idCounter) + 1 && all == old(all)[old(idCounter) := newconn]
      ensures newconn.Sending() == T.WriteGreeting(old(newconn.Sending()), Handshake.Image(newconn.handshakeOut))
      ensures var h, id := old(Model()), old(idCounter);
              Model() == h.(deque := h.deque + [id], open := h.open + {id}, down := h.down[id := []])
    {
      deqConnections := deqConnections + [newconn];
      deqConnections[|deqConnections| - 1].ConnectToClient(idCounter);
      idCounter := idCounter + 1;
      Record(newconn);
    }

    /** The new connection in the ghost fields. */
    ghost method Record(newconn: Connection)
      requires newconn !in repr && newconn.isOpen && newconn.sends == [] && newconn.id + 1 == idCounter
      requires forall x :: x in all ==> all[x] in repr && all[x].id == x && x < newconn.id
      requires |deqConnections| == |dequeIds| + 1 && deqConnections[|dequeIds|] == newconn && NoDup(dequeIds)
      requires forall k :: 0 <= k < |dequeIds| ==> dequeIds[k] in all && deqConnections[k] == all[dequeIds[k]]
      modifies this`all, this`repr, this`dequeIds
      ensures Valid() && all == old(all)[newconn.id := newconn]
      ensures var h, id := old(Model()), newconn.id;
              Model() == h.(deque := h.deque + [id], open := h.open + {id}, down := h.down[id := []])
    {
      ghost var h, id := Model(), newconn.id;
      dequeIds, all, repr := dequeIds + [id], all[id := newconn], repr + {newconn};
      assert Open() == h.open + {id};
      assert Logs() == h.down[id := []];
    }

    method OnClientConnect() returns (approve: bool)
      ensures approve == (|clientsIDs| < 8)
    {
      if |clientsIDs| >= MAX_CLIENTS {
        return false;
      }
      return true;
    }

    /** `client->Send(msg)`: ids tell connections apart, so exactly one log grows. */
    method SendLogged(client: Connection, msg: Packet)
      requires Indexed() && Known(client)
      modifies client`posted, client`sends
      ensures Model() == Sent(old(Model()), client.id, msg)
    {
      ghost var before := Model();
      client.Send(msg);
      assert client.sends == old(client.sends) + [msg];
      assert Logs() == before.down[client.id := before.down[client.id] + [msg]];
    }

    method OnClientValidated(client: Connection)
      requires Valid() && Known(client)
      modifies client`posted, client`sends
      ensures Valid() && Model() == Sent(old(Model()), client.id, NewPacket(CLIENT_ACCEPTED))
    {
      SendLogged(client, NewPacket(CLIENT_ACCEPTED));
    }

    method OnClientDisconnect(client: Connection?)
      modifies this`clientsIDs, this`garbageIDs
      ensures Model() == if client != null then Disconnect(old(Model()), client.id) else old(Model())
      ensures garbageIDs ==
              old(garbageIDs) + if client != null && client.id in old(clientsIDs) then [client.id] else []
    {
      if client != null {
        for i := 0 to |clientsIDs|
          invariant clientsIDs == old(clientsIDs) && garbageIDs == old(garbageIDs)
          invariant client.id !in clientsIDs[..i]
        {
          if clientsIDs[i] == client.id {
            RemoveFirstAt(clientsIDs, client.id, i);
            clientsIDs := clientsIDs[..i] + clientsIDs[i + 1..];
            garbageIDs := garbageIDs + [client.id];
            return;
          }
        }
      }
    }

    /** `erase(remove(begin, end, nullptr), end)`. */
    method EraseNulls()
      modifies this`deqConnections
      ensures deqConnections == WithoutNulls(old(deqConnections))
      ensures null !in old(deqConnections) ==> deqConnections == old(deqConnections)
    {
      var kept: seq<Connection?> := [];
      for i := 0 to |deqConnections|
        invariant deqConnections == old(deqConnections)
        invariant kept == WithoutNulls(deqConnections[..i])
        invariant null !in deqConnections[..i] ==> kept == deqConnections[..i]
      {
        assert deqConnections[..i + 1] == deqConnections[..i] + [deqConnections[i]];
        if deqConnections[i] != null {
          kept := kept + [deqConnections[i]];
        }
      }
      assert deqConnections[..|deqConnections|] == deqConnections;
      deqConnections := kept;
    }

    /** SendPacketClient with a connection. Resetting the parameter and erasing what equals it afterwards
        removes nulls, and the deque holds none. */
    method SendPacketTo(client: Connection, msg: Packet)
      requires Valid() && Known(client)
      modifies this`clientsIDs, this`garbageIDs, this`deqConnections, client`posted, client`sends
      ensures Valid() && Model() == SendTo(old(Model()), client.id, msg)
      ensures deqConnections == old(deqConnections)
    {
      var connected := client.IsConnected();
      if connected {
        SendLogged(client, msg);
      } else {
        OnClientDisconnect(client);
        EraseNulls();
      }
    }

    /** SendPacketClient. A null parameter is handled like a closed connection without an id. */
    method SendPacketClient(client: Connection?, msg: Packet)
      requires Valid() && (client != null ==> Known(client))
      modifies this`clientsIDs, this`garbageIDs, this`deqConnections, repr`posted, repr`sends
      ensures Valid() && Model() == if client == null then old(Model()) else SendTo(old(Model()), client.id, msg)
      ensures deqConnections == old(deqConnections)
    {
      if client != null {
        SendPacketTo(client, msg);
      } else {
        OnClientDisconnect(client);
        EraseNulls();
      }
    }

    /** The ignored connection as the hub knows it. */
    static ghost function Skip(ignore: Connection?): Option<Word>
      reads if ignore == null then {} else {ignore}
    {
      if ignore == null then None else Some(ignore.id)
    }

    /** One entry of the walk. */
    method SendToEntry(k: nat, msg: Packet, ignore: Connection?) returns (reset: bool)
      requires Indexed() && k < |dequeIds| && (ignore != null ==> Known(ignore))
      requires Walked(deqConnections, all, dequeIds, Closed(dequeIds, Open()), k)
      modifies this`clientsIDs, this`garbageIDs, this`deqConnections, repr`posted, repr`sends
      ensures Walked(deqConnections, all, dequeIds, Closed(dequeIds, Open()), k + 1)
      ensures reset <==> dequeIds[k] !in Open()
      ensures Model() ==
              var h, c := old(Model()), dequeIds[k];
              if c !in h.open then Disconnect(h, c) else if Skip(ignore) == Some(c) then h else Sent(h, c, msg)
    {
      var client := deqConnections[k];
      var connected := client.IsConnected();
      reset := !connected;
      if connected {
        if client != ignore {
          SendLogged(client, msg);
        }
      } else {
        OnClientDisconnect(client);
        deqConnections := deqConnections[k := null];
      }
    }

    /** The loop of SendPacketAllClients. */
    method SendToEntries(msg: Packet, ignore: Connection?) returns (invalid: bool)
      requires Valid() && (ignore != null ==> Known(ignore))
      modifies this`clientsIDs, this`garbageIDs, this`deqConnections, repr`posted, repr`sends
      ensures Model() == SendEach(old(Model()), dequeIds, msg, Skip(ignore))
      ensures var gone := Closed(dequeIds, Open());
              Walked(deqConnections, all, dequeIds, gone, |dequeIds|) && (invalid <==> gone != {})
    {
      ghost var h := Model();
      invalid := false;
      for i := 0 to |deqConnections|
        invariant |deqConnections| == |dequeIds|
        invariant Model() == SendEach(h, dequeIds[..i], msg, Skip(ignore))
        invariant Walked(deqConnections, all, dequeIds, Closed(dequeIds, Open()), i)
        invariant if invalid then Closed(dequeIds, Open()) != {} else forall k :: 0 <= k < i ==> dequeIds[k] in Open()
      {
        var reset := SendToEntry(i, msg, ignore);
        SendEachNext(h, dequeIds, i, msg, Skip(ignore));
        if reset {
          assert dequeIds[i] in Closed(dequeIds, Open());
          invalid := true;
        }
      }
      assert dequeIds[..|dequeIds|] == dequeIds;
    }

    /** The erase that follows the loop when an entry was reset. */
    method EraseIf(invalid: bool, ghost gone: set<Word>)
      requires Walked(deqConnections, all, dequeIds, gone, |dequeIds|)
      requires gone <= Elems(dequeIds) && (invalid <==> gone != {})
      modifies this`deqConnections
      ensures Shows(deqConnections, all, Drop(dequeIds, gone)) && Model() == old(Model())
    {
      ErasedEntries(deqConnections, all, dequeIds, gone);
      if invalid {
        EraseNulls();
      } else {
        DropNothing(dequeIds, gone);
      }
    }

    /** The ids of the erased entries leave the deque. */
    ghost method Forget(gone: set<Word>)
      requires Indexed() && Shows(deqConnections, all, Drop(dequeIds, gone)) && NoDup(dequeIds)
      modifies this`dequeIds
      ensures Valid() && Model() == old(Model()).(deque := Drop(old(dequeIds), gone))
    {
      DropNoDup(dequeIds, gone);
      dequeIds := Drop(dequeIds, gone);
    }

    method EraseReset(invalid: bool, ghost gone: set<Word>)
      requires Indexed() && Walked(deqConnections, all, dequeIds, gone, |dequeIds|) && NoDup(dequeIds)
      requires gone <= Elems(dequeIds) && (invalid <==> gone != {})
      modifies this`deqConnections, this`dequeIds
      ensures Valid() && Model() == old(Model()).(deque := Drop(old(dequeIds), gone))
    {
      EraseIf(invalid, gone);
      Forget(gone);
    }

    /** SendPacketAllClients. */
    method SendPacketAllClients(msg: Packet, ignore: Connection?)
      requires Valid() && (ignore != null ==> Known(ignore))
      modifies this`clientsIDs, this`garbageIDs, this`deqConnections, this`dequeIds, repr`posted, repr`sends
      ensures Valid() && Model() == SendAll(old(Model()), msg, Skip(ignore))
    {
      ghost var gone := Closed(dequeIds, Open());
      var invalid := SendToEntries(msg, ignore);
      EraseReset(invalid, gone);
    }

    /** Build a packet around one id and broadcast it. */
    method TellAll(t: Word, x: Word)
      requires Valid()
      modifies this`clientsIDs, this`garbageIDs, this`deqConnections, this`dequeIds, repr`posted, repr`sends
      ensures Valid() && Model() == SendAll(old(Model()), IdPacket(t, x), None)
    {
      var m := BuildIdPacket(t, x);
      SendPacketAllClients(m, null);
    }

    /** Build a packet around one id and send it to one connection. */
    method TellOne(client: Connection, t: Word, x: Word)
      requires Valid() && Known(client)
      modifies this`clientsIDs, this`garbageIDs, this`deqConnections, client`posted, client`sends
      ensures Valid() && Model() == SendTo(old(Model()), client.id, IdPacket(t, x))
    {
      var m := BuildIdPacket(t, x);
      SendPacketTo(client, m);
    }

    /** The first part of OnRecievePacket: a removal notice for every id in m_garbageIDs. */
    method FlushGarbage()
      requires Valid() && FlushDefined(Model())
      modifies this`clientsIDs, this`garbageIDs, this`deqConnections, this`dequeIds, repr`posted, repr`sends
      ensures Valid() && Model() == Flush(old(Model()))
    {
      if |garbageIDs| > 0 {
        ghost var h := Model();
        for i := 0 to |garbageIDs|
          invariant Valid() && garbageIDs == h.garbage
          invariant Model() == FlushEach(h, h.garbage[..i])
        {
          TellAll(GAME_REMOVE_CLIENT, garbageIDs[i]);
          FlushNext(h, i);
        }
        assert h.garbage[..|h.garbage|] == h.garbage;
        garbageIDs := [];
      }
    }

    /** A registration up to the broadcast. */
    method Announce(client: Connection)
      requires Valid() && Known(client)
      modifies this`clientsIDs, this`garbageIDs, this`deqConnections, this`dequeIds, repr`posted, repr`sends
      ensures Valid() && Model() == Announced(old(Model()), client.id)
    {
      var msgClientID := client.GetID();
      TellOne(client, CLIENT_ASSIGN_ID, msgClientID);
      ghost var told := Model();
      clientsIDs := clientsIDs + [msgClientID];
      assert Model() == told.(clients := told.clients + [client.id]);
      TellAll(GAME_ADD_CLIENT, msgClientID);
    }

    /** The closing loop of a registration. */
    method IntroduceOthers(client: Connection)
      requires Valid() && Known(client) && (client.isOpen || client.id !in clientsIDs)
      modifies this`clientsIDs, this`garbageIDs, this`deqConnections, client`posted, client`sends
      ensures Valid() && Model() == Introduce(old(Model()), client.id, old(clientsIDs))
    {
      ghost var a, c := Model(), client.id;
      for i := 0 to |clientsIDs|
        invariant Valid() && clientsIDs == a.clients
        invariant Model() == Introduce(a, c, a.clients[..i])
      {
        TellOne(client, GAME_ADD_CLIENT, clientsIDs[i]);
        IntroduceNext(a, c, i);
      }
      assert a.clients[..|a.clients|] == a.clients;
    }

    /** The Client_RegisterWithServer case. */
    method RegisterClient(client: Connection)
      requires Valid() && Known(client)
      requires client.isOpen || client.id !in Announced(Model(), client.id).clients
      modifies this`clientsIDs, this`garbageIDs, this`deqConnections, this`dequeIds, repr`posted, repr`sends
      ensures Valid() && Model() == Register(old(Model()), client.id)
    {
      Announce(client);
      IntroduceOthers(client);
    }

    method OnReceivePacket(client: Connection, pkt: Packet)
      requires Valid() && Known(client) && Walkable(Model(), client.id, pkt)
      modifies this`clientsIDs, this`garbageIDs, this`deqConnections, this`dequeIds, repr`posted, repr`sends
      ensures Valid() && Model() == Receive(old(Model()), client.id, pkt)
    {
      FlushGarbage();
      if pkt.id == CLIENT_REGISTER {
        RegisterClient(client);
      } else if pkt.id == GAME_SNAPSHOT {
        SendPacketAllClients(pkt, client);
      } else if pkt.id == GAME_EVENT_CLIENT {
        SendPacketAllClients(pkt, client);
      }
    }

    /** The inbound queue holds `es`, each packet with the connection of that id. */
    ghost predicate Queued(es: seq<Entry>)
      reads this`all, messagesIn
    {
      && |es| == |messagesIn.deqQueue|
      && forall i :: 0 <= i < |es| ==>
           es[i].from in all && messagesIn.deqQueue[i] == OwnedPacket(all[es[i].from], es[i].packet)
    }

    /** One round of Update. */
    method UpdateOne(ghost es: seq<Entry>)
      requires Valid() && es != [] && Queued(es) && Walkable(Model(), es[0].from, es[0].packet)
      modifies this`clientsIDs, this`garbageIDs, this`deqConnections, this`dequeIds, repr`posted, repr`sends, messagesIn
      ensures Valid() && Queued(es[1..])
      ensures Model() == Receive(old(Model()), es[0].from, es[0].packet)
    {
      ghost var q := messagesIn.deqQueue;
      var msg := messagesIn.PopFront();
      assert messagesIn.deqQueue == q[1..];
      assert msg == q[0] && Known(msg.remote);
      OnReceivePacket(msg.remote, msg.packet);
    }

    /** The same, seen from the start of Update. */
    method UpdateNext(ghost h: Hub, ghost es: seq<Entry>, ghost i: nat)
      requires Valid() && i < |es| && Queued(es[i..]) && AllWalkable(h, es) && Model() == ReceiveAll(h, es[..i])
      modifies this`clientsIDs, this`garbageIDs, this`deqConnections, this`dequeIds, repr`posted, repr`sends, messagesIn
      ensures Valid() && Queued(es[i + 1..]) && Model() == ReceiveAll(h, es[..i + 1])
    {
      ReceiveNext(h, es, i);
      UpdateOne(es[i..]);
    }

    /** Update without its wait: the counted loop handles the first nMaxMessages packets in queue order. */
    method Update(nMaxMessages: Word, ghost es: seq<Entry>)
      requires Valid() && Queued(es) && AllWalkable(Model(), es)
      modifies this`clientsIDs, this`garbageIDs, this`deqConnections, this`dequeIds, repr`posted, repr`sends, messagesIn
      ensures var n := if nMaxMessages < |es| then nMaxMessages else |es|;
              Valid() && Model() == ReceiveAll(old(Model()), es[..n]) && Queued(es[n..])
    {
      ghost var h := Model();
      var nMessageCount := 0;
      var empty := messagesIn.Empty();
      assert es[0..] == es;
      while nMessageCount < nMaxMessages && !empty
        invariant 0 <= nMessageCount <= |es| && nMessageCount <= nMaxMessages
        invariant Queued(es[nMessageCount..]) && (empty <==> nMessageCount == |es|)
        invariant Valid() && Model() == ReceiveAll(h, es[..nMessageCount])
        decreases |es| - nMessageCount
      {
        UpdateNext(h, es, nMessageCount);
        nMessageCount := nMessageCount + 1;
        empty := messagesIn.Empty();
      }
    }
  }
}
