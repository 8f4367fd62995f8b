/** Concrete runs of the protocol, for what the main results do not promise. */
module RelayRuns {
  import opened Words
  import opened Lists
  import opened Packets
  import opened Hubs
  import opened GameMessages
  import opened ClientViews
  import opened Relay
  import opened RelayTraffic
  import opened RelayTheorems

  const A: Id := 10000
  const B: Id := 10001

  function Accepted(): Packet {
    NewPacket(CLIENT_ACCEPTED)
  }

  function Register(): Packet {
    NewPacket(CLIENT_REGISTER)
  }

  // ---------- one step at a time, seen from one connection ----------

  /** Connection `c` as both ends see it. */
  ghost predicate Has(s: Sys, c: Id, down: seq<Packet>, peer: Peer) {
    c in s.hub.down && c in s.peers && s.hub.down[c] == down && s.peers[c] == peer
  }

  /** The server apart from the channels, and the packets it has taken. */
  ghost predicate Server(s: Sys, clients: seq<Id>, garbage: seq<Id>, open: set<Id>, waiting: seq<Entry>) {
    && s.hub.clients == clients && s.hub.garbage == garbage && s.hub.open == open
    && s.done <= |s.inLog| && s.inLog[s.done..] == waiting
  }

  ghost predicate SameServer(s: Sys, t: Sys) {
    t.hub.clients == s.hub.clients && t.hub.garbage == s.hub.garbage && t.hub.open == s.hub.open && t.next == s.next
  }

  ghost predicate SameQueue(s: Sys, t: Sys) {
    t.inLog == s.inLog && t.done == s.done
  }

  /** Connection `o` is as it was. */
  ghost predicate Unmoved(s: Sys, t: Sys, o: Id) {
    o in s.hub.down && o in s.peers ==> Has(t, o, s.hub.down[o], s.peers[o])
  }

  function Newcomer(born: nat): Peer {
    Peer(false, 0, NEWBORN, [], 0, born, false)
  }

  lemma DoAccept(s: Sys, o: Id) returns (t: Sys)
    requires Reachable(s) && Enabled(s, Accept) && o != s.next
    ensures Reachable(t) && SameQueue(s, t) && Unmoved(s, t, o)
    ensures t.next == s.next + 1 && Has(t, s.next, [], Newcomer(s.done))
    ensures t.hub.clients == s.hub.clients && t.hub.garbage == s.hub.garbage && t.hub.open == s.hub.open + {s.next}
    ensures Regular(s) ==> Regular(t)
  {
    t := Next(s, Accept);
    ReachableNext(s, Accept);
    if Regular(s) {
      RegularNext(s, Accept);
    }
  }

  lemma DoValidate(s: Sys, c: Id, o: Id) returns (t: Sys)
    requires Reachable(s) && c in s.peers && c in s.hub.down && c in s.hub.open && !s.peers[c].validated && o != c
    ensures Reachable(t) && SameServer(s, t) && SameQueue(s, t) && Unmoved(s, t, o)
    ensures Has(t, c, s.hub.down[c] + [Accepted()], s.peers[c].(validated := true))
    ensures Regular(s) ==> Regular(t)
  {
    t := Next(s, Validate(c));
    ReachableNext(s, Validate(c));
    if Regular(s) {
      RegularNext(s, Validate(c));
    }
  }

  lemma DoHandle(s: Sys, c: Id, o: Id) returns (t: Sys)
    requires Reachable(s) && c in s.peers && c in s.hub.down && s.peers[c].seen < |s.hub.down[c]| && o != c
    ensures Reachable(t) && SameServer(s, t) && SameQueue(s, t) && Unmoved(s, t, o)
    ensures var peer := s.peers[c];
            var p := s.hub.down[c][peer.seen];
            Has(t, c, s.hub.down[c],
                peer.(seen := peer.seen + 1, view := Handle(peer.view, p), up := peer.up + Replies(p)))
    ensures Regular(s) ==> Regular(t)
  {
    t := Next(s, HandleNext(c));
    ReachableNext(s, HandleNext(c));
    if Regular(s) {
      RegularNext(s, HandleNext(c));
    }
  }

  lemma DoTake(s: Sys, c: Id, o: Id) returns (t: Sys)
    requires Reachable(s) && c in s.peers && c in s.hub.down && c in s.hub.open && s.peers[c].validated && o != c
    requires s.peers[c].taken < |s.peers[c].up| && Agrees(s.peers[c].up[s.peers[c].taken]) && s.done <= |s.inLog|
    ensures Reachable(t) && SameServer(s, t) && Unmoved(s, t, o)
    ensures Has(t, c, s.hub.down[c], s.peers[c].(taken := s.peers[c].taken + 1))
    ensures t.done == s.done <= |t.inLog|
            && t.inLog[t.done..] == s.inLog[s.done..] + [Entry(c, s.peers[c].up[s.peers[c].taken])]
    ensures Regular(s) ==> Regular(t)
  {
    var q := s.peers[c].up[s.peers[c].taken];
    t := Next(s, Take(c, q));
    ReachableNext(s, Take(c, q));
    if Regular(s) {
      RegularNext(s, Take(c, q));
    }
  }

  lemma DoClose(s: Sys, c: Id, o: Id) returns (t: Sys)
    requires Reachable(s) && c in s.hub.open
    ensures Reachable(t) && SameQueue(s, t) && Unmoved(s, t, c) && Unmoved(s, t, o)
    ensures t.hub.clients == s.hub.clients && t.hub.garbage == s.hub.garbage && t.hub.open == s.hub.open - {c}
  {
    t := Next(s, Close(c));
    ReachableNext(s, Close(c));
  }

  lemma DoSend(s: Sys, c: Id, o: Id, words: seq<Word>) returns (t: Sys)
    requires Reachable(s) && c in s.peers && c in s.hub.down && !s.peers[c].view.waiting && words != []
             && Fits(words) && o != c
    ensures Reachable(t) && SameServer(s, t) && SameQueue(s, t) && Unmoved(s, t, o)
    ensures var peer := s.peers[c];
            Has(t, c, s.hub.down[c], peer.(up := peer.up + [Pack(GAME_SNAPSHOT, words, peer.view.id)]))
    ensures Regular(s) ==> Regular(t)
  {
    t := Next(s, SendGame(c, GAME_SNAPSHOT, words));
    ReachableNext(s, SendGame(c, GAME_SNAPSHOT, words));
    if Regular(s) {
      RegularNext(s, SendGame(c, GAME_SNAPSHOT, words));
    }
  }

  lemma CanRegister(h: Hub, c: Id)
    requires h.garbage == [] && c in h.open
    ensures ReceiveDefined(h, c, Register())
  {
  }

  lemma CanRelay(h: Hub, c: Id, p: Packet)
    requires IsGame(p.id) && forall x :: x in h.clients ==> x in h.open
    ensures ReceiveDefined(h, c, p)
  {
  }

  /** The server handles the entry `e`; `d` watches. */
  lemma DoProcess(s: Sys, e: Entry, d: Id) returns (t: Sys)
    requires Reachable(s) && s.done < |s.inLog| && s.inLog[s.done] == e && ReceiveDefined(s.hub, e.from, e.packet)
    requires d in s.peers && d in s.hub.down
    ensures Reachable(t) && t.inLog == s.inLog && t.done == s.done + 1
    ensures t.next == s.next
    ensures e.packet.id == CLIENT_REGISTER ==> forall x :: x in t.hub.deque ==> x in s.hub.open
    ensures Has(t, d, s.hub.down[d] + Delta(s.hub, e.from, e.packet, d),
            s.peers[d].(spoiled := s.peers[d].spoiled || Spoils(s, d)))
    ensures var listed := Listed(s.hub, e.from, e.packet);
            && t.hub.open == s.hub.open
            && t.hub.clients == Living(listed, s.hub.open) && Elems(t.hub.garbage) == Closed(listed, s.hub.open)
    ensures Regular(s) ==> Regular(t)
  {
    t := Next(s, Process);
    ReachableNext(s, Process);
    ProcessedAt(s, d);
    if e.packet.id == CLIENT_REGISTER {
      DequeAfterRegister(s);
    }
    if Regular(s) {
      RegularNext(s, Process);
    }
  }

  lemma DequeAfterRegister(s: Sys)
    requires Reachable(s) && Enabled(s, Process) && s.inLog[s.done].packet.id == CLIENT_REGISTER
    ensures forall x :: x in Next(s, Process).hub.deque ==> x in s.hub.open
  {
    NextPacketIsReady(s);
    FlushEffect(s.hub);
    RegisteredDequeIsOpen(Flush(s.hub), s.inLog[s.done].from);
  }

  lemma Start() returns (s: Sys)
    ensures Reachable(s) && Regular(s) && Server(s, [], [], {}, []) && s.next == A && s.done == 0
  {
    s := START;
    assert IsRun([s]);
    assert Go(START, []) == Some(s);
  }

  lemma NoElements(ids: seq<Id>)
    ensures Elems(ids) == {} <==> ids == []
  {
    if ids != [] {
      assert ids[0] in Elems(ids);
    }
  }

  lemma AllLiving(ids: seq<Id>, open: set<Id>)
    requires forall x :: x in ids ==> x in open
    ensures Living(ids, open) == ids && Closed(ids, open) == {}
  {
    DropNothing(ids, Closed(ids, open));
  }

  // ---------- overlapping registrations ----------

  /** A connection that has been accepted and validated, and whose Register the server has taken. */
  function Registering(born: nat): Peer {
    Peer(true, 1, NEWBORN, [Register()], 1, born, false)
  }

  /** A connection that has been accepted and validated, and has sent its Register. */
  function Replied(born: nat): Peer {
    Peer(true, 1, NEWBORN, [Register()], 0, born, false)
  }

  lemma BothValidated() returns (s: Sys)
    ensures Reachable(s) && Server(s, [], [], {A, B}, [])
    ensures Has(s, A, [Accepted()], Newcomer(0).(validated := true))
    ensures Has(s, B, [Accepted()], Newcomer(0).(validated := true))
  {
    s := Start();
    s := DoAccept(s, B);
    s := DoAccept(s, A);
    s := DoValidate(s, A, B);
    s := DoValidate(s, B, A);
  }

  lemma BothReplied() returns (s: Sys)
    ensures Reachable(s) && Server(s, [], [], {A, B}, [])
    ensures Has(s, A, [Accepted()], Replied(0)) && Has(s, B, [Accepted()], Replied(0))
  {
    s := BothValidated();
    s := DoHandle(s, A, B);
    s := DoHandle(s, B, A);
  }

  lemma BothTaken() returns (s: Sys)
    ensures Reachable(s) && Server(s, [], [], {A, B}, [Entry(A, Register()), Entry(B, Register())])
    ensures Has(s, A, [Accepted()], Registering(0)) && Has(s, B, [Accepted()], Registering(0))
  {
    s := BothReplied();
    s := DoTake(s, A, B);
    s := DoTake(s, B, A);
  }

  /** What the registration of `c` sends when all of `clients + [c]` are open. */
  lemma WelcomeIs(h: Hub, c: Id)
    requires h.garbage == [] && (forall x :: x in h.clients + [c] ==> x in h.open)
    ensures Delta(h, c, Register(), c) ==
            [IdPacket(CLIENT_ASSIGN_ID, c), IdPacket(GAME_ADD_CLIENT, c)] + IdPackets(GAME_ADD_CLIENT, h.clients + [c])
    ensures forall d :: d in h.open && d != c ==> Delta(h, c, Register(), d) == [IdPacket(GAME_ADD_CLIENT, c)]
  {
    AllLiving(h.clients + [c], h.open);
  }

  /** The server handles a Register while everybody concerned is open; `d` watches. */
  lemma DoRegister(s: Sys, c: Id, d: Id) returns (t: Sys)
    requires Reachable(s) && s.done < |s.inLog| && s.inLog[s.done] == Entry(c, Register())
    requires s.hub.garbage == [] && (forall x :: x in s.hub.clients + [c] ==> x in s.hub.open)
    requires d in s.peers && d in s.hub.down && d in s.hub.open
    ensures Reachable(t) && t.hub.clients == s.hub.clients + [c] && t.hub.garbage == [] && t.hub.open == s.hub.open
    ensures t.inLog == s.inLog && t.done == s.done + 1 && t.next == s.next
    ensures forall x :: x in t.hub.deque ==> x in s.hub.open
    ensures d != c ==> Has(t, d, s.hub.down[d] + [IdPacket(GAME_ADD_CLIENT, c)], s.peers[d])
    ensures d == c ==>
              Has(t, d, s.hub.down[d] + ([IdPacket(CLIENT_ASSIGN_ID, c), IdPacket(GAME_ADD_CLIENT, c)]
                                         + IdPackets(GAME_ADD_CLIENT, s.hub.clients + [c])),
                  s.peers[d].(spoiled := s.peers[d].spoiled || Spoils(s, d)))
    ensures Regular(s) ==> Regular(t)
  {
    assert (s.hub.clients + [c])[|s.hub.clients|] == c;
    CanRegister(s.hub, c);
    t := DoProcess(s, Entry(c, Register()), d);
    WelcomeIs(s.hub, c);
    AllLiving(s.hub.clients + [c], s.hub.open);
    NoElements(t.hub.garbage);
  }

  /** The entry the server handles next. */
  lemma Head(s: Sys, e: Entry, rest: seq<Entry>)
    requires s.done <= |s.inLog| && s.inLog[s.done..] == [e] + rest
    ensures s.done < |s.inLog| && s.inLog[s.done] == e && s.inLog[s.done + 1..] == rest
  {
    assert s.inLog[s.done] == s.inLog[s.done..][0];
    assert s.inLog[s.done + 1..] == s.inLog[s.done..][1..];
  }

  lemma FirstRegistered() returns (s: Sys)
    ensures Reachable(s) && Server(s, [A], [], {A, B}, [Entry(B, Register())])
    ensures Has(s, B, [Accepted(), IdPacket(GAME_ADD_CLIENT, A)], Registering(0))
  {
    s := BothTaken();
    Head(s, Entry(A, Register()), [Entry(B, Register())]);
    s := DoRegister(s, A, B);
  }

  lemma RosterOne()
    ensures HandleAll(NEWBORN, [Accepted(), IdPacket(GAME_ADD_CLIENT, A)]) == View(0, true, false, [A])
  {
    HandleOne(NEWBORN, [], Accepted());
    HandleOne(NEWBORN, [Accepted()], IdPacket(GAME_ADD_CLIENT, A));
    IdPacketCarries(GAME_ADD_CLIENT, A);
    assert [] + [Accepted()] == [Accepted()];
    assert [Accepted()] + [IdPacket(GAME_ADD_CLIENT, A)] == [Accepted(), IdPacket(GAME_ADD_CLIENT, A)];
  }

  lemma {:induction false} HandleNotice(v: View, ps: seq<Packet>, t: Word, x: Id)
    requires CarriesOne(t)
    ensures HandleAll(v, ps + [IdPacket(t, x)]) == Told(HandleAll(v, ps), t, x)
  {
    HandleOne(v, ps, IdPacket(t, x));
    IdPacketCarries(t, x);
  }

  predicate CarriesOne(t: Word) {
    t == CLIENT_ASSIGN_ID || t == GAME_ADD_CLIENT
  }

  /** What one assigned or added id does to a client. */
  function Told(v: View, t: Word, x: Id): View {
    if t == CLIENT_ASSIGN_ID then v.(id := x)
    else if x == v.id then v.(waiting := false)
    else v.(roster := v.roster + [x])
  }

  lemma {:induction false} SecondWelcome(v: View)
    requires v == View(0, true, false, [A])
    ensures HandleAll(v, [IdPacket(CLIENT_ASSIGN_ID, B), IdPacket(GAME_ADD_CLIENT, B)]
                         + IdPackets(GAME_ADD_CLIENT, [A, B]))
            == View(B, false, false, [A, A])
  {
    var assign, add := [IdPacket(CLIENT_ASSIGN_ID, B)], [IdPacket(GAME_ADD_CLIENT, B)];
    HandleNotice(v, [], CLIENT_ASSIGN_ID, B);
    HandleNotice(v, [] + assign, GAME_ADD_CLIENT, B);
    HandleNotice(v, [] + assign + add, GAME_ADD_CLIENT, A);
    HandleNotice(v, [] + assign + add + [IdPacket(GAME_ADD_CLIENT, A)], GAME_ADD_CLIENT, B);
    assert [] + assign + add + [IdPacket(GAME_ADD_CLIENT, A)] + add
        == [IdPacket(CLIENT_ASSIGN_ID, B), IdPacket(GAME_ADD_CLIENT, B)] + IdPackets(GAME_ADD_CLIENT, [A, B]);
  }

  lemma HasHeardOfA(s: Sys)
    requires s.done < |s.inLog| && s.inLog[s.done] == Entry(B, Register()) && A in s.hub.open
    requires B in s.hub.down && s.hub.down[B] == [Accepted(), IdPacket(GAME_ADD_CLIENT, A)]
    ensures Spoils(s, B)
  {
    RosterOne();
    assert A in HandleAll(NEWBORN, s.hub.down[B]).roster;
  }

  lemma SecondRegistered() returns (s: Sys, peer: Peer)
    ensures Reachable(s) && s.hub.open == {A, B} && s.hub.clients == [A, B] && s.hub.garbage == [] && peer.spoiled
    ensures Has(s, B, [Accepted(), IdPacket(GAME_ADD_CLIENT, A)]
                      + ([IdPacket(CLIENT_ASSIGN_ID, B), IdPacket(GAME_ADD_CLIENT, B)]
                         + IdPackets(GAME_ADD_CLIENT, [A, B])),
                peer)
  {
    s := FirstRegistered();
    Head(s, Entry(B, Register()), []);
    HasHeardOfA(s);
    s := DoRegister(s, B, B);
    assert [A] + [B] == [A, B];
    peer := s.peers[B];
  }

  /** Two clients whose registrations overlap: the second one hears of the first both by the broadcast and
      by its own introduction, and lists it twice. */
  lemma OverlapDuplicates() returns (s: Sys)
    ensures Reachable(s) && s.hub.open == {A, B} && s.hub.clients == [A, B] && s.hub.garbage == []
    ensures B in s.peers && B in s.hub.down && s.peers[B].spoiled && s.peers[B].seen <= |s.hub.down[B]|
    ensures Eventually(s, B).roster == [A, A]
  {
    var r, peer := SecondRegistered();
    s := r;
    var before := [Accepted(), IdPacket(GAME_ADD_CLIENT, A)];
    var more := [IdPacket(CLIENT_ASSIGN_ID, B), IdPacket(GAME_ADD_CLIENT, B)] + IdPackets(GAME_ADD_CLIENT, [A, B]);
    RosterOne();
    SecondWelcome(HandleAll(NEWBORN, before));
    HandleAllAppend(NEWBORN, before, more);
    TrafficAt(s, B);
    EventuallySettles(s, B);
  }

  // ---------- a game packet whose sender was never introduced ----------

  lemma AloneTaken() returns (s: Sys)
    ensures Regular(s) && Reachable(s) && Server(s, [], [], {A}, [Entry(A, Register())]) && s.next == B && s.done == 0
    ensures Has(s, A, [Accepted()], Registering(0))
  {
    s := Start();
    s := DoAccept(s, B);
    s := DoValidate(s, A, B);
    s := DoHandle(s, A, B);
    s := DoTake(s, A, B);
  }

  lemma AloneRegistered() returns (s: Sys)
    ensures Regular(s) && Reachable(s) && Server(s, [A], [], {A}, []) && s.next == B && s.done == 1
    ensures Has(s, A,
                [Accepted(), IdPacket(CLIENT_ASSIGN_ID, A), IdPacket(GAME_ADD_CLIENT, A), IdPacket(GAME_ADD_CLIENT, A)],
                Registering(0))
  {
    s := AloneTaken();
    Head(s, Entry(A, Register()), []);
    assert HandleAll(NEWBORN, [Accepted()]).roster == [] by {
      HandleOne(NEWBORN, [], Accepted());
      assert [] + [Accepted()] == [Accepted()];
    }
    s := DoRegister(s, A, A);
    assert [] + [A] == [A];
    assert IdPackets(GAME_ADD_CLIENT, [A]) == [IdPacket(GAME_ADD_CLIENT, A)];
  }

  function Game(): Packet {
    Pack(GAME_SNAPSHOT, [0], A)
  }

  lemma GameIs()
    ensures Agrees(Game()) && Subject(Game()) == A && Game().id == GAME_SNAPSHOT
  {
    PackShape(GAME_SNAPSHOT, [0], A);
  }

  lemma AloneTold() returns (s: Sys, peer: Peer)
    ensures Regular(s) && Reachable(s) && Server(s, [A], [], {A}, []) && s.next == B && s.done == 1
    ensures A in s.hub.down && Has(s, A, s.hub.down[A], peer)
    ensures peer.validated && peer.taken == 1 && peer.up == [Register()] && peer.view == View(A, false, false, [])
  {
    s := AloneRegistered();
    IdPacketCarries(CLIENT_ASSIGN_ID, A);
    IdPacketCarries(GAME_ADD_CLIENT, A);
    s := DoHandle(s, A, B);
    s := DoHandle(s, A, B);
    assert [Register()] + [] == [Register()];
    peer := s.peers[A];
  }

  /** A has been told its id, has been announced, and has sent a game packet. */
  lemma AloneSends() returns (s: Sys, peer: Peer)
    ensures Regular(s) && Reachable(s) && Server(s, [A], [], {A}, []) && s.next == B && s.done == 1
    ensures A in s.hub.down && Has(s, A, s.hub.down[A], peer)
    ensures peer.validated && peer.taken == 1 && peer.up == [Register(), Game()]
  {
    s, peer := AloneTold();
    s := DoSend(s, A, B, [0]);
    peer := s.peers[A];
  }

  /** A bystander has connected, and the server is about to relay the packet of A. */
  lemma AboutToRelay() returns (s: Sys)
    ensures Regular(s) && Reachable(s) && B in s.hub.open
    ensures s.done < |s.inLog| && s.inLog[s.done] == Entry(A, Game()) && IsGame(Game().id) && Enabled(s, Process)
  {
    var peer;
    s, peer := AloneSends();
    GameIs();
    s := DoAccept(s, A);
    s := DoTake(s, A, B);
    Head(s, Entry(A, Game()), []);
    CanRelay(s.hub, A, Game());
  }

  /** B has connected and replied in the meantime. */
  lemma ReceiverReplied() returns (s: Sys, peer: Peer)
    ensures Reachable(s) && Server(s, [A], [], {A, B}, []) && Has(s, B, [Accepted()], Replied(1))
    ensures A in s.hub.down && Has(s, A, s.hub.down[A], peer)
    ensures peer.validated && peer.taken == 1 && peer.up == [Register(), Game()]
  {
    s, peer := AloneSends();
    s := DoAccept(s, A);
    s := DoValidate(s, B, A);
    s := DoHandle(s, B, A);
  }

  lemma SenderCloses() returns (s: Sys)
    ensures Reachable(s) && Server(s, [A], [], {B}, [Entry(B, Register()), Entry(A, Game())])
    ensures Has(s, B, [Accepted()], Registering(1)) && A in s.peers
  {
    var peer;
    s, peer := ReceiverReplied();
    GameIs();
    s := DoTake(s, B, A);
    s := DoTake(s, A, B);
    s := DoClose(s, A, B);
  }

  lemma Singleton(ids: seq<Id>, x: Id)
    requires NoDup(ids) && Elems(ids) == {x}
    ensures ids == [x]
  {
    assert forall k :: 0 <= k < |ids| ==> ids[k] in Elems(ids);
    NoElements(ids);
    FirstTwoDiffer(ids);
  }

  lemma FirstTwoDiffer(ids: seq<Id>)
    requires NoDup(ids)
    ensures |ids| > 1 ==> ids[0] != ids[1]
  {
  }

  lemma LateWelcome(h: Hub)
    requires h.clients == [A] && h.garbage == [] && h.open == {B}
    ensures Delta(h, B, Register(), B)
            == [IdPacket(CLIENT_ASSIGN_ID, B), IdPacket(GAME_ADD_CLIENT, B), IdPacket(GAME_ADD_CLIENT, B)]
  {
    LivingOfTwo();
    assert h.clients + [B] == [A, B];
    assert IdPackets(GAME_ADD_CLIENT, [B]) == [IdPacket(GAME_ADD_CLIENT, B)];
  }

  lemma GarbageIs(s: Sys, x: Id)
    requires Reachable(s) && Elems(s.hub.garbage) == {x}
    ensures s.hub.garbage == [x]
  {
    BaseAt(s);
    Singleton(s.hub.garbage, x);
  }

  /** The registration of B finds the socket of A closed. */
  lemma DoLateRegistration(s: Sys) returns (t: Sys)
    requires Reachable(s) && s.done < |s.inLog| && s.inLog[s.done] == Entry(B, Register())
    requires s.hub.clients == [A] && s.hub.garbage == [] && s.hub.open == {B} && B in s.peers && B in s.hub.down
    ensures Reachable(t) && t.hub.clients == [B] && t.hub.garbage == [A] && t.hub.open == {B}
    ensures t.inLog == s.inLog && t.done == s.done + 1
    ensures B in t.peers && B in t.hub.down
    ensures t.hub.down[B] == s.hub.down[B]
            + [IdPacket(CLIENT_ASSIGN_ID, B), IdPacket(GAME_ADD_CLIENT, B), IdPacket(GAME_ADD_CLIENT, B)]
  {
    CanRegister(s.hub, B);
    LateWelcome(s.hub);
    assert Listed(s.hub, B, Register()) == [A, B];
    LivingOfTwo();
    t := DoProcess(s, Entry(B, Register()), B);
    GarbageIs(t, A);
  }

  lemma ReceiverRegistered() returns (s: Sys)
    ensures Reachable(s) && Server(s, [B], [A], {B}, [Entry(A, Game())]) && B in s.peers
    ensures Has(s, B,
                [Accepted(), IdPacket(CLIENT_ASSIGN_ID, B), IdPacket(GAME_ADD_CLIENT, B), IdPacket(GAME_ADD_CLIENT, B)],
                s.peers[B])
  {
    s := SenderCloses();
    Head(s, Entry(B, Register()), [Entry(A, Game())]);
    s := DoLateRegistration(s);
  }

  lemma LivingOfTwo()
    ensures Living([A, B], {B}) == [B] && Closed([A, B], {B}) == {A}
  {
    assert Closed([A, B], {B}) == {A};
    assert [A, B] == [A] + [B];
    DropAppend([A], [B], {A});
    DropNothing([B], {A});
    assert [A][..0] == [];
  }

  lemma LateRelay(h: Hub)
    requires h.garbage == [A] && h.open == {B}
    ensures Delta(h, A, Game(), B) == [IdPacket(GAME_REMOVE_CLIENT, A), Game()]
  {
    GameIs();
    assert IdPackets(GAME_REMOVE_CLIENT, [A]) == [IdPacket(GAME_REMOVE_CLIENT, A)];
  }

  lemma NotIntroduced()
    ensures var add := IdPacket(GAME_ADD_CLIENT, A);
            && add != Accepted() && add != Game() && add != IdPacket(CLIENT_ASSIGN_ID, B)
            && add != IdPacket(GAME_ADD_CLIENT, B) && add != IdPacket(GAME_REMOVE_CLIENT, A)
  {
    GameIs();
    IdPacketCarries(GAME_ADD_CLIENT, A);
    IdPacketCarries(GAME_ADD_CLIENT, B);
    IdPacketCarries(CLIENT_ASSIGN_ID, B);
    IdPacketCarries(GAME_REMOVE_CLIENT, A);
  }

  lemma UnannouncedRelay() returns (s: Sys)
    ensures Reachable(s) && s.hub.clients == [B] && s.hub.open == {B}
    ensures B in s.hub.down
    ensures s.hub.down[B] == [Accepted(), IdPacket(CLIENT_ASSIGN_ID, B), IdPacket(GAME_ADD_CLIENT, B),
                              IdPacket(GAME_ADD_CLIENT, B), IdPacket(GAME_REMOVE_CLIENT, A), Game()]
  {
    s := ReceiverRegistered();
    Head(s, Entry(A, Game()), []);
    GameIs();
    AllLiving([B], {B});
    CanRelay(s.hub, A, Game());
    LateRelay(s.hub);
    s := DoProcess(s, Entry(A, Game()), B);
  }

  /** An open registered client can get a game packet of a sender it has never been told of: the sender had
      sent it before its socket closed, and the client was registered in between. */
  lemma UnannouncedSender() returns (s: Sys)
    ensures Reachable(s) && s.hub.clients == [B] && s.hub.open == {B}
    ensures B in s.hub.down && |s.hub.down[B]| == 6 && s.hub.down[B][1] == IdPacket(CLIENT_ASSIGN_ID, B)
    ensures IsGame(s.hub.down[B][5].id) && Subject(s.hub.down[B][5]) == A
    ensures IdPacket(GAME_ADD_CLIENT, A) !in s.hub.down[B]
  {
    s := UnannouncedRelay();
    GameIs();
    NotIntroduced();
  }

  // ---------- a client that hears of others before it is accepted ----------

  lemma BystanderAccepted() returns (s: Sys)
    ensures Reachable(s) && Server(s, [], [], {A, B}, [Entry(A, Register())])
    ensures Has(s, B, [], Newcomer(0))
  {
    s := AloneTaken();
    s := DoAccept(s, A);
  }

  /** The registration of A is announced to B, whose challenge may not even have left: the first packet on
      that channel is an AddClient, and Accepted comes second. */
  lemma ToldBeforeAccepted() returns (s: Sys, t: Sys)
    ensures Reachable(s) && B in s.peers && !s.peers[B].validated
    ensures B in s.hub.down && s.hub.down[B] == [IdPacket(GAME_ADD_CLIENT, A)]
    ensures Enabled(s, Validate(B)) && t == Next(s, Validate(B)) && B in t.hub.down
    ensures t.hub.down[B] == [IdPacket(GAME_ADD_CLIENT, A), NewPacket(CLIENT_ACCEPTED)]
  {
    s := BystanderAccepted();
    Head(s, Entry(A, Register()), []);
    s := DoRegister(s, A, B);
    t := Next(s, Validate(B));
  }

  // ---------- the guards on the walked vectors can fail ----------

  /** B is registered and closed while the removal of A is still to be announced: the flush forgets B. */
  lemma FlushCanForget() returns (s: Sys)
    ensures Reachable(s) && s.done < |s.inLog| && !FlushDefined(s.hub)
    ensures B in s.hub.clients && B !in Flush(s.hub).clients && B !in Flush(s.hub).garbage
  {
    s := ReceiverRegistered();
    Head(s, Entry(A, Game()), []);
    s := DoClose(s, B, A);
    assert B in s.hub.clients && B !in s.hub.open;
    BaseAt(s);
    FlushForgets(s.hub, B);
  }

  lemma ReversedTaken() returns (s: Sys)
    ensures Reachable(s) && Server(s, [], [], {B}, [Entry(B, Register()), Entry(A, Register())])
    ensures Has(s, B, [Accepted()], Registering(0))
  {
    s := BothReplied();
    s := DoTake(s, B, A);
    s := DoTake(s, A, B);
    s := DoClose(s, A, B);
  }

  /** A is closed with its Register still queued, and the registration of B takes it out of the deque: the
      closing loop of its own registration will erase what it walks. */
  lemma RegistrationCanBeUndefined() returns (s: Sys)
    ensures Reachable(s) && s.done < |s.inLog| && s.inLog[s.done] == Entry(A, Register())
    ensures s.hub.garbage == [] && A !in s.hub.open && !RegisterDefined(Flush(s.hub), A)
  {
    s := ReversedTaken();
    Head(s, Entry(B, Register()), [Entry(A, Register())]);
    s := DoRegister(s, B, B);
    GoneFromTheDeque(s.hub, A);
    Head(s, Entry(A, Register()), []);
  }

  lemma GoneFromTheDeque(h: Hub, c: Id)
    requires h.garbage == [] && c !in h.open && forall x :: x in h.deque ==> x in h.open
    ensures !RegisterDefined(Flush(h), c)
  {
  }
}
