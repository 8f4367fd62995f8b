/** NetworkServer/Server.cpp and NetworkManager/server_interface.h on values: what each server
    operation does to the two id vectors, the connection deque and every connection's outbound log. */
module Hubs {
  import opened Words
  import opened Lists
  import opened Packets

  const FIRST_ID: Word := 10000
  const MAX_CLIENTS := 8

  type Id = Word

  /** `clients` and `garbage` are m_clientsIDs and m_garbageIDs, `deque` the ids in m_deqConnections,
      `open` the connections whose socket is open, and `down[i]` everything ever sent to connection i. */
  datatype Hub = Hub(clients: seq<Id>, garbage: seq<Id>, deque: seq<Id>, open: set<Id>, down: map<Id, seq<Packet>>)

  /** What the vectors look like between two server operations. */
  ghost predicate HubOk(h: Hub) {
    && NoDup(h.clients) && NoDup(h.garbage) && NoDup(h.deque)
    && (forall x :: x in h.deque ==> x in h.down)
    && (forall x :: x in h.open ==> x in h.deque)
    && (forall x :: x in h.clients ==> x in h.deque && x !in h.garbage)
    && (forall x :: x in h.garbage ==> x in h.down && x !in h.open)
  }

  // ---------- the operations, step by step ----------

  /** OnClientDisconnect: a registered id moves from m_clientsIDs to the end of m_garbageIDs. */
  function Disconnect(h: Hub, c: Id): Hub {
    if c in h.clients then h.(clients := RemoveFirst(h.clients, c), garbage := h.garbage + [c]) else h
  }

  function Sent(h: Hub, c: Id, p: Packet): Hub {
    if c in h.down then h.(down := h.down[c := h.down[c] + [p]]) else h
  }

  /** SendPacketClient. On a closed socket the deque stays as it is: the `remove` that follows looks
      for the null it has just stored in its own parameter. */
  function SendTo(h: Hub, c: Id, p: Packet): Hub {
    if c in h.open then Sent(h, c, p) else Disconnect(h, c)
  }

  /** The loop of SendPacketAllClients over the deque entries `todo`. */
  function SendEach(h: Hub, todo: seq<Id>, p: Packet, skip: Option<Id>): Hub
    decreases |todo|
  {
    if todo == [] then h
    else
      var before := SendEach(h, todo[..|todo| - 1], p, skip);
      var c := todo[|todo| - 1];
      if c !in h.open then Disconnect(before, c)
      else if skip == Some(c) then before
      else Sent(before, c, p)
  }

  /** The entries of `s` whose socket is closed: the ones a walk over the deque resets to null. */
  function Closed(s: seq<Id>, open: set<Id>): set<Id> {
    set x | x in s && x !in open
  }

  /** SendPacketAllClients: the loop, then the reset entries leave the deque. */
  function SendAll(h: Hub, p: Packet, skip: Option<Id>): Hub {
    SendEach(h, h.deque, p, skip).(deque := Drop(h.deque, Closed(h.deque, h.open)))
  }

  /** The notices for the first entries of m_garbageIDs. */
  function FlushEach(h: Hub, todo: seq<Id>): Hub {
    if todo == [] then h
    else SendAll(FlushEach(h, todo[..|todo| - 1]), IdPacket(GAME_REMOVE_CLIENT, todo[|todo| - 1]), None)
  }

  function Flush(h: Hub): Hub {
    if h.garbage == [] then h else FlushEach(h, h.garbage).(garbage := [])
  }

  /** The closing loop of a registration: one AddClient to `c` for each registered id. */
  function Introduce(h: Hub, c: Id, ids: seq<Id>): Hub {
    if ids == [] then h
    else SendTo(Introduce(h, c, ids[..|ids| - 1]), c, IdPacket(GAME_ADD_CLIENT, ids[|ids| - 1]))
  }

  /** The state between the broadcast of a registration and its closing loop. */
  function Announced(h: Hub, c: Id): Hub {
    var told := SendTo(h, c, IdPacket(CLIENT_ASSIGN_ID, c));
    SendAll(told.(clients := told.clients + [c]), IdPacket(GAME_ADD_CLIENT, c), None)
  }

  function Register(h: Hub, c: Id): Hub {
    var announced := Announced(h, c);
    Introduce(announced, c, announced.clients)
  }

  /** OnRecievePacket for packet `p` from connection `c`. */
  function Receive(h: Hub, c: Id, p: Packet): Hub {
    var h := Flush(h);
    if p.id == CLIENT_REGISTER then Register(h, c)
    else if IsGame(p.id) then SendAll(h, p, Some(c))
    else h
  }

  // ---------- where the C++ loops stay defined ----------

  /** No push to m_garbageIDs while the flush walks it. */
  ghost predicate FlushDefined(h: Hub) {
    h.garbage == [] || forall x :: x in h.clients ==> x in h.open
  }

  /** No erase from m_clientsIDs while the registration walks it. */
  ghost predicate RegisterDefined(h: Hub, c: Id) {
    c in h.open || c in h.deque
  }

  ghost predicate ReceiveDefined(h: Hub, c: Id, p: Packet) {
    FlushDefined(h) && (p.id == CLIENT_REGISTER ==> RegisterDefined(Flush(h), c))
  }

  /** A packet that OnRecievePacket can handle: its loops are defined, and it registers no id twice. */
  ghost predicate Ready(h: Hub, c: Id, p: Packet) {
    && ReceiveDefined(h, c, p)
    && (p.id == CLIENT_REGISTER ==> c in h.down && c !in h.clients)
  }

  /** No walk of OnRecievePacket over an id vector meets a push to or an erase from that vector. */
  ghost predicate Walkable(h: Hub, c: Id, p: Packet) {
    && FlushDefined(h)
    && (p.id == CLIENT_REGISTER ==> c in h.open || c !in Announced(Flush(h), c).clients)
  }

  // ---------- the same results in closed form ----------

  /** The outbound logs once every open entry of `todo` but `skip` has been sent `p`. */
  ghost function Spread(h: Hub, todo: seq<Id>, p: Packet, skip: Option<Id>): map<Id, seq<Packet>> {
    map i | i in h.down :: if i in todo && i in h.open && skip != Some(i) then h.down[i] + [p] else h.down[i]
  }

  /** The registered ids of closed sockets among `todo`, in the order of the walk. */
  function Found(todo: seq<Id>, clients: seq<Id>, open: set<Id>): (ids: seq<Id>)
    ensures forall x :: x in ids <==> x in todo && x in clients && x !in open
  {
    if todo == [] then []
    else
      var c := todo[|todo| - 1];
      Found(todo[..|todo| - 1], clients, open) + if c in clients && c !in open then [c] else []
  }

  /** How a walk over `todo` that runs into closed sockets changes the two vectors. */
  ghost predicate Swept(h: Hub, r: Hub, todo: seq<Id>) {
    && r.clients == Drop(h.clients, Closed(todo, h.open))
    && NoDup(r.garbage)
    && r.garbage == h.garbage + Found(todo, h.clients, h.open)
    && r.open == h.open
  }

  lemma {:induction false} FoundSnoc(rest: seq<Id>, c: Id, clients: seq<Id>, open: set<Id>)
    ensures Found(rest + [c], clients, open)
            == Found(rest, clients, open) + if c in clients && c !in open then [c] else []
  {
    assert (rest + [c])[..|rest|] == rest;
  }

  lemma OneMoreInGarbage(garbage: seq<Id>, found: seq<Id>, c: Id)
    ensures garbage + found + [c] == garbage + (found + [c]) && garbage + (found + []) == garbage + found
  {
  }

  lemma DisconnectClients(h: Hub, before: Hub, rest: seq<Id>, c: Id)
    requires NoDup(h.clients) && before.clients == Drop(h.clients, Closed(rest, h.open))
    requires c !in h.open && c !in rest
    ensures Disconnect(before, c).clients == Drop(h.clients, Closed(rest + [c], h.open))
    ensures c in before.clients <==> c in h.clients
  {
    var gone := Closed(rest, h.open);
    assert Closed(rest + [c], h.open) == gone + {c};
    DropNoDup(h.clients, gone);
    DropTwice(h.clients, gone, {c});
    RemoveFirstIsDrop(before.clients, c);
    if c !in before.clients {
      RemoveFirstAbsent(before.clients, c);
    }
  }

  lemma {:induction false} DisconnectGarbage(h: Hub, before: Hub, rest: seq<Id>, c: Id)
    requires c in before.clients <==> c in h.clients
    requires before.garbage == h.garbage + Found(rest, h.clients, h.open) && c !in h.open
    ensures Disconnect(before, c).garbage == h.garbage + Found(rest + [c], h.clients, h.open)
  {
    FoundSnoc(rest, c, h.clients, h.open);
    OneMoreInGarbage(h.garbage, Found(rest, h.clients, h.open), c);
  }

  lemma DisconnectSweeps(h: Hub, before: Hub, rest: seq<Id>, c: Id)
    requires NoDup(h.clients) && (forall x :: x in h.clients ==> x !in h.garbage)
    requires Swept(h, before, rest) && c !in h.open
    requires c !in rest
    ensures Swept(h, Disconnect(before, c), rest + [c])
  {
    DisconnectClients(h, before, rest, c);
    DisconnectGarbage(h, before, rest, c);
    if c in before.clients {
      NoDupConcat(before.garbage, [c]);
    }
  }

  lemma SendSweeps(h: Hub, before: Hub, rest: seq<Id>, c: Id)
    requires Swept(h, before, rest) && c in h.open
    ensures Swept(h, before, rest + [c])
  {
    FoundSnoc(rest, c, h.clients, h.open);
    OneMoreInGarbage(h.garbage, Found(rest, h.clients, h.open), c);
    assert Closed(rest + [c], h.open) == Closed(rest, h.open);
  }

  lemma {:induction false} SendEachSweeps(h: Hub, todo: seq<Id>, p: Packet, skip: Option<Id>)
    requires NoDup(h.clients) && NoDup(h.garbage) && (forall x :: x in h.clients ==> x !in h.garbage)
    requires NoDup(todo)
    ensures Swept(h, SendEach(h, todo, p, skip), todo)
  {
    if todo == [] {
      DropNothing(h.clients, {});
      assert Closed(todo, h.open) == {};
    } else {
      var rest, c := todo[..|todo| - 1], todo[|todo| - 1];
      SendEachSweeps(h, rest, p, skip);
      assert todo == rest + [c];
      if c !in h.open {
        DisconnectSweeps(h, SendEach(h, rest, p, skip), rest, c);
      } else {
        SendSweeps(h, SendEach(h, rest, p, skip), rest, c);
      }
    }
  }

  lemma SpreadOne(h: Hub, rest: seq<Id>, c: Id, p: Packet, skip: Option<Id>)
    requires c !in rest && c in h.down
    ensures Spread(h, rest + [c], p, skip) ==
            if c in h.open && skip != Some(c) then Spread(h, rest, p, skip)[c := h.down[c] + [p]]
            else Spread(h, rest, p, skip)
  {
    var all := rest + [c];
    assert all[|rest|] == c;
    forall i | i in h.down
      ensures i != c ==> (i in all <==> i in rest)
    {
    }
  }

  lemma {:induction false} SendEachSpreads(h: Hub, todo: seq<Id>, p: Packet, skip: Option<Id>)
    requires NoDup(todo) && forall x :: x in todo ==> x in h.down
    ensures SendEach(h, todo, p, skip).down == Spread(h, todo, p, skip)
    ensures SendEach(h, todo, p, skip).deque == h.deque
  {
    if todo != [] {
      var rest, c := todo[..|todo| - 1], todo[|todo| - 1];
      SendEachSpreads(h, rest, p, skip);
      SpreadOne(h, rest, c, p, skip);
      assert todo == rest + [c];
    }
  }

  /** One broadcast: every open connection but `skip` gets `p` exactly once, every closed one leaves
      the deque, and exactly the registered ids among those move to the garbage. */
  lemma SendAllEffect(h: Hub, p: Packet, skip: Option<Id>)
    requires HubOk(h)
    ensures var r := SendAll(h, p, skip);
            && HubOk(r) && Swept(h, r, h.deque)
            && r.down == Spread(h, h.deque, p, skip)
            && r.deque == Drop(h.deque, Closed(h.deque, h.open))
            && (forall x :: x in r.deque <==> x in h.open)
  {
    SendEachSweeps(h, h.deque, p, skip);
    SendEachSpreads(h, h.deque, p, skip);
    DropNoDup(h.deque, Closed(h.deque, h.open));
    DropNoDup(h.clients, Closed(h.deque, h.open));
  }

  // ---------- one OnRecievePacket, closed form ----------

  /** One packet of the given type for each id, in order. */
  function IdPackets(t: Word, ids: seq<Id>): (ps: seq<Packet>)
    ensures |ps| == |ids|
    ensures forall k :: 0 <= k < |ids| ==> ps[k] == IdPacket(t, ids[k])
  {
    if ids == [] then [] else IdPackets(t, ids[..|ids| - 1]) + [IdPacket(t, ids[|ids| - 1])]
  }

  /** The outbound logs once every open connection has been sent `ps`. */
  ghost function Posted(h: Hub, ps: seq<Packet>): map<Id, seq<Packet>> {
    map i | i in h.down :: if i in h.open then h.down[i] + ps else h.down[i]
  }

  lemma {:induction false} DropSame(s: seq<Id>, a: set<Id>, b: set<Id>)
    requires forall x :: x in s ==> (x in a <==> x in b)
    ensures Drop(s, a) == Drop(s, b)
  {
    if s != [] {
      var front := s[..|s| - 1];
      assert forall x :: x in front ==> x in s;
      DropSame(front, a, b);
    }
  }

  lemma SpreadIsPosted(h: Hub, p: Packet)
    requires HubOk(h)
    ensures Spread(h, h.deque, p, None) == Posted(h, [p])
  {
  }

  lemma {:induction false} QuietSendEach(h: Hub, todo: seq<Id>, p: Packet, skip: Option<Id>)
    requires forall x :: x in h.clients ==> x in h.open
    ensures var r := SendEach(h, todo, p, skip); r.clients == h.clients && r.garbage == h.garbage && r.open == h.open
    decreases |todo|
  {
    if todo != [] {
      QuietSendEach(h, todo[..|todo| - 1], p, skip);
    }
  }

  lemma {:induction false} QuietFlushEach(h: Hub, todo: seq<Id>)
    requires forall x :: x in h.clients ==> x in h.open
    ensures var r := FlushEach(h, todo); r.clients == h.clients && r.garbage == h.garbage && r.open == h.open
  {
    if todo != [] {
      var r := FlushEach(h, todo[..|todo| - 1]);
      QuietFlushEach(h, todo[..|todo| - 1]);
      QuietSendEach(r, r.deque, IdPacket(GAME_REMOVE_CLIENT, todo[|todo| - 1]), None);
    }
  }

  /** With every registered socket open, a broadcast changes no id vector. */
  lemma QuietSendAll(h: Hub, p: Packet)
    requires HubOk(h) && forall x :: x in h.clients ==> x in h.open
    ensures var r := SendAll(h, p, None);
            && HubOk(r)
            && r == h.(deque := Drop(h.deque, Closed(h.deque, h.open)), down := Posted(h, [p]))
  {
    SendAllEffect(h, p, None);
    QuietSendEach(h, h.deque, p, None);
    SpreadIsPosted(h, p);
    DropNothing(h.clients, Closed(h.deque, h.open));
  }

  lemma PostedNothing(h: Hub)
    ensures Posted(h, []) == h.down
  {
    assert forall i :: i in h.down ==> h.down[i] + [] == h.down[i];
  }

  lemma PostedTwice(h: Hub, r: Hub, ps: seq<Packet>, qs: seq<Packet>)
    requires r.down == Posted(h, ps) && r.open == h.open
    ensures Posted(r, qs) == Posted(h, ps + qs)
  {
    assert forall i :: i in h.down ==> h.down[i] + ps + qs == h.down[i] + (ps + qs);
  }

  lemma {:induction false} FlushEachEffect(h: Hub, todo: seq<Id>)
    requires HubOk(h) && forall x :: x in h.clients ==> x in h.open
    ensures var r := FlushEach(h, todo);
            && HubOk(r) && r.clients == h.clients && r.garbage == h.garbage && r.open == h.open
            && r.deque == (if todo == [] then h.deque else Drop(h.deque, Closed(h.deque, h.open)))
            && r.down == Posted(h, IdPackets(GAME_REMOVE_CLIENT, todo))
  {
    if todo == [] {
      PostedNothing(h);
    } else {
      var rest, g := todo[..|todo| - 1], todo[|todo| - 1];
      FlushEachEffect(h, rest);
      var r := FlushEach(h, rest);
      QuietSendAll(r, IdPacket(GAME_REMOVE_CLIENT, g));
      if rest != [] {
        DropNothing(r.deque, Closed(r.deque, h.open));
      }
      PostedTwice(h, r, IdPackets(GAME_REMOVE_CLIENT, rest), [IdPacket(GAME_REMOVE_CLIENT, g)]);
    }
  }

  lemma FlushEffect(h: Hub)
    requires HubOk(h) && FlushDefined(h)
    ensures var r := Flush(h);
            && HubOk(r) && r.clients == h.clients && r.garbage == [] && r.open == h.open
            && (forall x :: x in r.deque ==> x in h.deque)
            && r.down == Posted(h, IdPackets(GAME_REMOVE_CLIENT, h.garbage))
  {
    if h.garbage == [] {
      PostedNothing(h);
    } else {
      FlushEachEffect(h, h.garbage);
    }
  }

  lemma {:induction false} IntroduceOpen(h: Hub, c: Id, ids: seq<Id>)
    requires c in h.open && c in h.down
    ensures Introduce(h, c, ids) == h.(down := h.down[c := h.down[c] + IdPackets(GAME_ADD_CLIENT, ids)])
  {
    if ids == [] {
      assert h.down[c] + [] == h.down[c];
      assert h.down[c := h.down[c]] == h.down;
    } else {
      IntroduceOpen(h, c, ids[..|ids| - 1]);
      var ps := IdPackets(GAME_ADD_CLIENT, ids[..|ids| - 1]);
      var last := [IdPacket(GAME_ADD_CLIENT, ids[|ids| - 1])];
      assert h.down[c] + ps + last == h.down[c] + (ps + last);
    }
  }

  /** What the closing loop of a registration leaves alone, and what it sends to `d`. */
  lemma {:induction false} IntroduceEffect(h: Hub, c: Id, ids: seq<Id>)
    requires HubOk(h) && c in h.down && (c in h.open || c !in h.clients)
    ensures var r := Introduce(h, c, ids);
            && r.clients == h.clients && r.garbage == h.garbage && r.deque == h.deque && r.open == h.open
            && r.down.Keys == h.down.Keys && HubOk(r)
            && forall d :: d in h.down ==>
                 r.down[d] == if d == c && c in h.open then h.down[d] + IdPackets(GAME_ADD_CLIENT, ids) else h.down[d]
  {
    if c in h.open {
      IntroduceOpen(h, c, ids);
    } else {
      IntroduceClosed(h, c, ids);
    }
  }

  lemma {:induction false} IntroduceClosed(h: Hub, c: Id, ids: seq<Id>)
    requires c !in h.open && c !in h.clients
    ensures Introduce(h, c, ids) == h
  {
    if ids != [] {
      IntroduceClosed(h, c, ids[..|ids| - 1]);
    }
  }

  /** The registered ids once a walk has met every closed socket. */
  function Living(ids: seq<Id>, open: set<Id>): seq<Id> {
    Drop(ids, Closed(ids, open))
  }

  /** What a registration of `c` sends to `d`. */
  function Welcome(h: Hub, c: Id, d: Id): seq<Packet> {
    if d !in h.open then []
    else if d != c then [IdPacket(GAME_ADD_CLIENT, c)]
    else
      [IdPacket(CLIENT_ASSIGN_ID, c), IdPacket(GAME_ADD_CLIENT, c)]
      + IdPackets(GAME_ADD_CLIENT, Living(h.clients + [c], h.open))
  }

  lemma RegisterListed(h: Hub, c: Id)
    requires HubOk(h) && RegisterDefined(h, c) && c in h.down && c !in h.clients && c !in h.garbage
    ensures var told := SendTo(h, c, IdPacket(CLIENT_ASSIGN_ID, c));
            var listed := told.(clients := told.clients + [c]);
            && HubOk(listed)
            && var assign := [IdPacket(CLIENT_ASSIGN_ID, c)];
               listed == h.(clients := h.clients + [c],
                            down := if c in h.open then h.down[c := h.down[c] + assign] else h.down)
  {
  }

  lemma SweptOfListed(h: Hub, r: Hub, ids: seq<Id>)
    requires HubOk(h) && Swept(h, r, h.deque) && ids == h.clients
    ensures r.clients == Living(ids, h.open)
    ensures forall x :: x in r.garbage <==> x in h.garbage || x in Closed(ids, h.open)
  {
    DropSame(h.clients, Closed(h.deque, h.open), Closed(h.clients, h.open));
  }

  lemma AnnouncedEffect(h: Hub, c: Id)
    requires HubOk(h) && RegisterDefined(h, c) && c in h.down && c !in h.clients && c !in h.garbage
    ensures var r := Announced(h, c);
            && HubOk(r) && r.open == h.open
            && r.clients == Living(h.clients + [c], h.open)
            && (forall x :: x in r.garbage <==> x in h.garbage || x in Closed(h.clients + [c], h.open))
            && r.garbage == h.garbage + Found(h.deque, h.clients + [c], h.open)
            && (forall x :: x in r.deque ==> x in h.deque)
            && r.down == Posted(SendTo(h, c, IdPacket(CLIENT_ASSIGN_ID, c)), [IdPacket(GAME_ADD_CLIENT, c)])
  {
    RegisterListed(h, c);
    var told := SendTo(h, c, IdPacket(CLIENT_ASSIGN_ID, c));
    var listed := told.(clients := told.clients + [c]);
    SendAllEffect(listed, IdPacket(GAME_ADD_CLIENT, c), None);
    SpreadIsPosted(listed, IdPacket(GAME_ADD_CLIENT, c));
    SweptOfListed(listed, Announced(h, c), h.clients + [c]);
  }

  /** What a registration sends to `d` before its closing loop. */
  function Notice(h: Hub, c: Id, d: Id): seq<Packet> {
    Said(d in h.open, d == c, IdPacket(CLIENT_ASSIGN_ID, c), IdPacket(GAME_ADD_CLIENT, c))
  }

  function Said(listens: bool, own: bool, assign: Packet, add: Packet): seq<Packet> {
    if !listens then [] else if !own then [add] else [assign, add]
  }

  /** `a` is `h` after a registration of `c` up to its closing loop. */
  ghost predicate IsAnnounced(h: Hub, c: Id, a: Hub) {
    IsAnnouncedBy(h, c, a, IdPacket(CLIENT_ASSIGN_ID, c), IdPacket(GAME_ADD_CLIENT, c))
  }

  ghost predicate IsAnnouncedBy(h: Hub, c: Id, a: Hub, assign: Packet, add: Packet) {
    && HubOk(a) && a.open == h.open
    && a.clients == Living(h.clients + [c], h.open)
    && (forall x :: x in a.garbage <==> x in h.garbage || x in Closed(h.clients + [c], h.open))
    && a.garbage == h.garbage + Found(h.deque, h.clients + [c], h.open)
    && (forall x :: x in a.deque ==> x in h.deque)
    && a.down.Keys == h.down.Keys && (c in a.open || c !in a.clients)
    && forall d :: d in h.down ==> a.down[d] == h.down[d] + Said(d in h.open, d == c, assign, add)
  }

  lemma NoticeSent(h: Hub, c: Id, d: Id, assign: Packet, add: Packet)
    requires c in h.down && d in h.down
    ensures var told := SendTo(h, c, assign);
            c in h.open || told.down == h.down ==>
              && d in told.down && told.open == h.open
              && (if d in h.open then told.down[d] + [add] else told.down[d])
                 == h.down[d] + Said(d in h.open, d == c, assign, add)
  {
    AppendTwice(h.down[d], assign, add);
    AppendNothing(h.down[d]);
  }

  lemma Appended(before: seq<Packet>, notices: seq<Packet>, more: seq<Packet>)
    ensures before + notices + more == before + (notices + more)
  {
  }

  lemma AppendTwice(before: seq<Packet>, p: Packet, q: Packet)
    ensures before + [p] + [q] == before + [p, q]
  {
  }

  lemma AppendNothing(before: seq<Packet>)
    ensures before + [] == before
  {
  }

  lemma PostedNotices(h: Hub, c: Id, assign: Packet, add: Packet)
    requires c in h.down && c !in h.clients
    ensures var down := Posted(SendTo(h, c, assign), [add]);
            && down.Keys == h.down.Keys
            && forall d :: d in h.down ==> down[d] == h.down[d] + Said(d in h.open, d == c, assign, add)
  {
    forall d | d in h.down
      ensures d in SendTo(h, c, assign).down
      ensures Posted(SendTo(h, c, assign), [add])[d] == h.down[d] + Said(d in h.open, d == c, assign, add)
    {
      NoticeSent(h, c, d, assign, add);
    }
  }

  lemma RegistrantGone(h: Hub, c: Id)
    ensures c in h.open || c !in Living(h.clients + [c], h.open)
  {
    assert c !in h.open ==> c in Closed(h.clients + [c], h.open);
  }

  lemma AnnouncedIsFrom(h: Hub, c: Id, a: Hub, assign: Packet, add: Packet)
    requires c in h.down && c !in h.clients
    requires HubOk(a) && a.open == h.open && a.clients == Living(h.clients + [c], h.open)
    requires forall x :: x in a.garbage <==> x in h.garbage || x in Closed(h.clients + [c], h.open)
    requires a.garbage == h.garbage + Found(h.deque, h.clients + [c], h.open)
    requires (forall x :: x in a.deque ==> x in h.deque) && a.down == Posted(SendTo(h, c, assign), [add])
    ensures IsAnnouncedBy(h, c, a, assign, add)
  {
    RegistrantGone(h, c);
    PostedNotices(h, c, assign, add);
  }

  lemma AnnouncedIs(h: Hub, c: Id)
    requires HubOk(h) && RegisterDefined(h, c) && c in h.down && c !in h.clients && c !in h.garbage
    ensures IsAnnounced(h, c, Announced(h, c))
  {
    AnnouncedEffect(h, c);
    AnnouncedIsFrom(h, c, Announced(h, c), IdPacket(CLIENT_ASSIGN_ID, c), IdPacket(GAME_ADD_CLIENT, c));
  }

  lemma WelcomeIsNotice(h: Hub, c: Id)
    requires c in h.open
    ensures Welcome(h, c, c) == Notice(h, c, c) + IdPackets(GAME_ADD_CLIENT, Living(h.clients + [c], h.open))
    ensures forall d :: d != c ==> Welcome(h, c, d) == Notice(h, c, d)
  {
  }

  lemma {:induction false} RegisterSendsFrom(h: Hub, a: Hub, c: Id, d: Id)
    requires IsAnnounced(h, c, a) && c in h.down && d in h.down
    ensures var r := Introduce(a, c, a.clients); d in r.down && r.down[d] == h.down[d] + Welcome(h, c, d)
  {
    IntroduceEffect(a, c, a.clients);
    if c in h.open {
      WelcomeIsNotice(h, c);
      if d == c {
        Appended(h.down[c], Notice(h, c, c), IdPackets(GAME_ADD_CLIENT, a.clients));
      }
    }
  }

  lemma RegisterSends(h: Hub, c: Id, d: Id)
    requires HubOk(h) && RegisterDefined(h, c) && c in h.down && c !in h.clients && c !in h.garbage && d in h.down
    ensures d in Register(h, c).down && Register(h, c).down[d] == h.down[d] + Welcome(h, c, d)
  {
    AnnouncedIs(h, c);
    RegisterSendsFrom(h, Announced(h, c), c, d);
  }

  /** `r` is `h` after a registration of `c`, the channels apart. */
  ghost predicate IsRegistered(h: Hub, c: Id, r: Hub) {
    && HubOk(r) && r.open == h.open
    && r.clients == Living(h.clients + [c], h.open)
    && (forall x :: x in r.garbage <==> x in h.garbage || x in Closed(h.clients + [c], h.open))
    && r.garbage == h.garbage + Found(h.deque, h.clients + [c], h.open)
    && (forall x :: x in r.deque ==> x in h.deque)
    && r.down.Keys == h.down.Keys
  }

  lemma {:induction false} RegisterEffectFrom(h: Hub, a: Hub, c: Id)
    requires IsAnnounced(h, c, a) && c in h.down
    ensures IsRegistered(h, c, Introduce(a, c, a.clients))
  {
    IntroduceEffect(a, c, a.clients);
  }

  /** A defined registration lists `c` (unless its socket is found closed), announces it to every open
      connection, and introduces to `c` exactly the ids that stay registered. */
  lemma RegisterEffect(h: Hub, c: Id)
    requires HubOk(h) && RegisterDefined(h, c) && c in h.down && c !in h.clients && c !in h.garbage
    ensures IsRegistered(h, c, Register(h, c))
  {
    AnnouncedIs(h, c);
    RegisterEffectFrom(h, Announced(h, c), c);
  }

  /** A registration takes every closed connection out of the deque. */
  lemma RegisteredDequeIsOpen(h: Hub, c: Id)
    requires HubOk(h) && RegisterDefined(h, c) && c in h.down && c !in h.clients && c !in h.garbage
    ensures forall x :: x in Register(h, c).deque ==> x in h.open
  {
    RegisterListed(h, c);
    var told := SendTo(h, c, IdPacket(CLIENT_ASSIGN_ID, c));
    SendAllEffect(told.(clients := told.clients + [c]), IdPacket(GAME_ADD_CLIENT, c), None);
    AnnouncedIs(h, c);
    IntroduceEffect(Announced(h, c), c, Announced(h, c).clients);
  }

  /** What handling `p` from `c` sends to `d`: first the pending removal notices, then what `p` asks for. */
  function Delta(h: Hub, c: Id, p: Packet, d: Id): seq<Packet> {
    if d !in h.open then []
    else
      IdPackets(GAME_REMOVE_CLIENT, h.garbage) +
      if p.id == CLIENT_REGISTER then Welcome(h, c, d)
      else if IsGame(p.id) && d != c then [p]
      else []
  }

  predicate Walks(p: Packet) {
    p.id == CLIENT_REGISTER || IsGame(p.id)
  }

  /** The ids registered once `p` has been looked at, before its broadcast meets closed sockets. */
  function Listed(h: Hub, c: Id, p: Packet): seq<Id> {
    if p.id == CLIENT_REGISTER then h.clients + [c] else h.clients
  }

  lemma RelayEffect(h: Hub, c: Id, p: Packet)
    requires HubOk(h)
    ensures var r := SendAll(h, p, Some(c));
            && HubOk(r) && r.open == h.open
            && r.clients == Living(h.clients, h.open)
            && (forall x :: x in r.garbage <==> x in h.garbage || x in Closed(h.clients, h.open))
            && r.garbage == h.garbage + Found(h.deque, h.clients, h.open)
            && (forall x :: x in r.deque ==> x in h.deque)
            && r.down.Keys == h.down.Keys
            && forall d :: d in h.down ==> r.down[d] == h.down[d] + (if d in h.open && d != c then [p] else [])
  {
    SendAllEffect(h, p, Some(c));
    SweptOfListed(h, SendAll(h, p, Some(c)), h.clients);
  }

  /** `r` is `h` after a packet that lists `listed`. */
  ghost predicate IsReceived(h: Hub, listed: seq<Id>, r: Hub) {
    && HubOk(r) && r.open == h.open && r.clients == Living(listed, h.open)
    && (forall x :: x in r.garbage <==> x in Closed(listed, h.open))
    && r.garbage == Found(h.deque, listed, h.open)
    && (forall x :: x in r.deque ==> x in h.deque) && r.down.Keys == h.down.Keys
  }

  lemma RegisterReceived(h: Hub, c: Id)
    requires HubOk(h) && RegisterDefined(h, c) && c in h.down && c !in h.clients && h.garbage == []
    ensures IsReceived(h, h.clients + [c], Register(h, c))
  {
    RegisterEffect(h, c);
    assert [] + Found(h.deque, h.clients + [c], h.open) == Found(h.deque, h.clients + [c], h.open);
  }

  lemma RelayReceived(h: Hub, c: Id, p: Packet)
    requires HubOk(h) && h.garbage == []
    ensures IsReceived(h, h.clients, SendAll(h, p, Some(c)))
  {
    RelayEffect(h, c, p);
    assert [] + Found(h.deque, h.clients, h.open) == Found(h.deque, h.clients, h.open);
  }

  /** The whole of OnRecievePacket on any input for which its loops are defined. The ids found closed are
      queued for removal in the order of the deque. */
  lemma ReceiveEffect(h: Hub, c: Id, p: Packet)
    requires HubOk(h) && Ready(h, c, p)
    ensures var r := Receive(h, c, p);
            && HubOk(r) && r.open == h.open
            && r.clients == (if Walks(p) then Living(Listed(h, c, p), h.open) else h.clients)
            && (forall x :: x in r.garbage <==> Walks(p) && x in Closed(Listed(h, c, p), h.open))
            && r.garbage == (if Walks(p) then Found(Flush(h).deque, Listed(h, c, p), h.open) else [])
            && (forall x :: x in r.deque ==> x in h.deque)
            && r.down.Keys == h.down.Keys
  {
    FlushEffect(h);
    if p.id == CLIENT_REGISTER {
      RegisterReceived(Flush(h), c);
    } else if IsGame(p.id) {
      RelayReceived(Flush(h), c, p);
    }
  }

  lemma FlushDeque(h: Hub)
    requires HubOk(h) && FlushDefined(h)
    ensures Flush(h).deque == if h.garbage == [] then h.deque else Drop(h.deque, Closed(h.deque, h.open))
  {
    if h.garbage != [] {
      FlushEachEffect(h, h.garbage);
    }
  }

  lemma RegisterDeque(h: Hub, c: Id)
    requires HubOk(h) && RegisterDefined(h, c) && c in h.down && c !in h.clients && c !in h.garbage
    ensures Register(h, c).deque == Drop(h.deque, Closed(h.deque, h.open))
  {
    RegisterListed(h, c);
    var told := SendTo(h, c, IdPacket(CLIENT_ASSIGN_ID, c));
    SendAllEffect(told.(clients := told.clients + [c]), IdPacket(GAME_ADD_CLIENT, c), None);
    AnnouncedIs(h, c);
    IntroduceEffect(Announced(h, c), c, Announced(h, c).clients);
  }

  /** What becomes of the deque: closed connections leave it, and nobody changes places. */
  lemma ReceiveDeque(h: Hub, c: Id, p: Packet)
    requires HubOk(h) && Ready(h, c, p)
    ensures var f := Flush(h).deque;
            && f == (if h.garbage == [] then h.deque else Drop(h.deque, Closed(h.deque, h.open)))
            && Receive(h, c, p).deque == if Walks(p) then Drop(f, Closed(f, h.open)) else f
  {
    FlushEffect(h);
    FlushDeque(h);
    if p.id == CLIENT_REGISTER {
      RegisterDeque(Flush(h), c);
    } else if IsGame(p.id) {
      SendAllEffect(Flush(h), p, Some(c));
    }
  }

  lemma ReceiveDelta(h: Hub, c: Id, p: Packet, d: Id)
    requires HubOk(h) && Ready(h, c, p) && d in h.down
    ensures d in Receive(h, c, p).down && Receive(h, c, p).down[d] == h.down[d] + Delta(h, c, p, d)
  {
    FlushEffect(h);
    var f := Flush(h);
    var notices := IdPackets(GAME_REMOVE_CLIENT, h.garbage);
    if p.id == CLIENT_REGISTER {
      RegisterSends(f, c, d);
      assert Welcome(f, c, d) == Welcome(h, c, d);
      Appended(h.down[d], notices, Welcome(h, c, d));
    } else if IsGame(p.id) {
      RelayEffect(f, c, p);
      Appended(h.down[d], notices, if d != c then [p] else []);
    }
  }

  /** What the protocol delivers can be walked. */
  lemma ReadyIsWalkable(h: Hub, c: Id, p: Packet)
    requires HubOk(h) && Ready(h, c, p)
    ensures Walkable(h, c, p)
  {
    FlushEffect(h);
    if p.id == CLIENT_REGISTER && c !in h.open {
      AnnouncedEffect(Flush(h), c);
      assert c in Closed(h.clients + [c], h.open);
    }
  }

  // ---------- the definedness conditions are exact ----------

  lemma {:induction false} GarbageGrows(h: Hub, todo: seq<Id>)
    requires HubOk(h) && todo != []
    ensures HubOk(FlushEach(h, todo)) && FlushEach(h, todo).open == h.open
    ensures FlushEach(h, todo).clients == Living(h.clients, h.open)
    ensures forall x :: x in FlushEach(h, todo).garbage <==> x in h.garbage || x in Closed(h.clients, h.open)
  {
    var rest := todo[..|todo| - 1];
    var notice := IdPacket(GAME_REMOVE_CLIENT, todo[|todo| - 1]);
    if rest == [] {
      SendAllEffect(h, notice, None);
      SweptOfListed(h, SendAll(h, notice, None), h.clients);
    } else {
      GarbageGrows(h, rest);
      var r := FlushEach(h, rest);
      SendAllEffect(r, notice, None);
      SweptOfListed(r, SendAll(r, notice, None), r.clients);
      DropNothing(r.clients, Closed(r.clients, h.open));
    }
  }

  /** The flush leaves alone the vector it walks exactly when no registered socket is closed. */
  lemma {:induction false} FlushDefinedExactly(h: Hub)
    requires HubOk(h)
    ensures FlushDefined(h) <==> FlushEach(h, h.garbage).garbage == h.garbage
  {
    if FlushDefined(h) {
      if h.garbage != [] {
        FlushEachEffect(h, h.garbage);
      }
    } else {
      GarbageGrows(h, h.garbage);
    }
  }

  /** Otherwise the `clear` after the walk drops every newly found id unannounced: it is in neither
      vector any more, so no peer is ever told to remove it. */
  lemma FlushForgets(h: Hub, x: Id)
    requires HubOk(h) && !FlushDefined(h) && x in h.clients && x !in h.open
    ensures x !in Flush(h).clients && x !in Flush(h).garbage && x !in h.garbage
  {
    GarbageGrows(h, h.garbage);
  }

  lemma {:induction false} IntroduceUnlists(h: Hub, c: Id, ids: seq<Id>)
    requires c !in h.open && ids != [] && NoDup(h.clients)
    ensures c !in Introduce(h, c, ids).clients && NoDup(Introduce(h, c, ids).clients)
    ensures Introduce(h, c, ids).open == h.open
  {
    var rest := ids[..|ids| - 1];
    if rest != [] {
      IntroduceUnlists(h, c, rest);
    }
    var before := Introduce(h, c, rest);
    RemoveFirstIsDrop(before.clients, c);
    DropNoDup(before.clients, {c});
  }

  /** The closing loop of a registration leaves alone the vector it walks exactly when the
      registering socket is open or still in the deque. */
  lemma RegisterDefinedExactly(h: Hub, c: Id)
    requires HubOk(h) && c in h.down && c !in h.clients && c !in h.garbage
    ensures RegisterDefined(h, c) <==> Register(h, c).clients == Announced(h, c).clients
  {
    var a := Announced(h, c);
    if RegisterDefined(h, c) {
      AnnouncedEffect(h, c);
      if c in h.open {
        IntroduceOpen(a, c, a.clients);
      } else {
        IntroduceClosed(a, c, a.clients);
      }
    } else {
      var listed := h.(clients := h.clients + [c]);
      SendEachSweeps(listed, listed.deque, IdPacket(GAME_ADD_CLIENT, c), None);
      DropNoDup(listed.clients, Closed(h.deque, h.open));
      assert c in listed.clients by {
        assert listed.clients[|h.clients|] == c;
      }
      IntroduceUnlists(a, c, a.clients);
    }
  }
}
