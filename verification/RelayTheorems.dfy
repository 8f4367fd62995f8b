/** The main results about the protocol, for every reachable state and every run. */
module RelayTheorems {
  import opened Words
  import opened Lists
  import opened Packets
  import opened Hubs
  import opened GameMessages
  import opened ClientViews
  import opened Relay
  import opened RelayTokens
  import opened RelayTraffic
  import opened RelayCausality
  import opened RelayOrder
  import opened RelayRoster

  ghost predicate Inv(s: Sys) {
    Rosters(s) && Ordered(s)
  }

  lemma InitialInv(s: Sys)
    requires Initial(s)
    ensures Inv(s)
  {
  }

  lemma InvStep(s: Sys, st: Step)
    requires Inv(s) && Enabled(s, st)
    ensures Inv(Next(s, st))
  {
    RostersStep(s, st);
    OrderedStep(s, st);
  }

  lemma {:induction false} RunInv(run: seq<Sys>)
    requires IsRun(run)
    ensures Inv(run[|run| - 1])
  {
    var last := |run| - 1;
    if last == 0 {
      InitialInv(run[0]);
    } else {
      RunInv(run[..last]);
      var st :| Enabled(run[last - 1], st) && run[last] == Next(run[last - 1], st);
      InvStep(run[last - 1], st);
    }
  }

  lemma ReachableInv(s: Sys)
    requires Reachable(s)
    ensures Inv(s)
  {
    var run :| IsRun(run) && run[|run| - 1] == s;
    RunInv(run);
  }

  lemma {:induction false} RunPrefix(run: seq<Sys>, n: nat)
    requires IsRun(run) && 0 < n <= |run|
    ensures IsRun(run[..n])
  {
    if n < |run| {
      RunPrefix(run[..|run| - 1], n);
      assert run[..|run| - 1][..n] == run[..n];
    } else {
      assert run[..n] == run;
    }
  }

  lemma {:induction false} ReachableAt(run: seq<Sys>, k: nat)
    requires IsRun(run) && k < |run|
    ensures Reachable(run[k])
  {
    RunPrefix(run, k + 1);
    assert run[..k + 1][|run[..k + 1]| - 1] == run[k];
  }

  lemma {:induction false} FollowsAt(run: seq<Sys>, k: nat)
    requires IsRun(run) && k + 1 < |run|
    ensures Reachable(run[k]) && Follows(run[k], run[k + 1])
  {
    ReachableAt(run, k);
    RunPrefix(run, k + 2);
    LastFollows(run[..k + 2]);
  }

  lemma {:induction false} LastFollows(run: seq<Sys>)
    requires IsRun(run) && |run| > 1
    ensures Follows(run[|run| - 2], run[|run| - 1])
  {
  }

  lemma ReachableNext(s: Sys, st: Step)
    requires Reachable(s) && Enabled(s, st)
    ensures Reachable(Next(s, st))
  {
    var run :| IsRun(run) && run[|run| - 1] == s;
    var t := Next(s, st);
    assert Follows(s, t);
    RunSnoc(run, t);
    assert (run + [t])[|run|] == t;
  }

  lemma {:induction false} RunSnoc(run: seq<Sys>, t: Sys)
    requires IsRun(run) && Follows(run[|run| - 1], t)
    ensures IsRun(run + [t])
  {
    var longer := run + [t];
    assert longer[..|run|] == run;
    assert longer[|run| - 1] == run[|run| - 1] && longer[|run|] == t;
  }

  // ---------- the invariant, one fact at a time ----------

  lemma BaseAt(s: Sys)
    requires Reachable(s)
    ensures Base(s)
  {
    ReachableInv(s);
  }

  lemma {:induction false} TokenAt(s: Sys, c: Id)
    requires Reachable(s) && c in s.peers
    ensures s.peers[c].taken <= |s.peers[c].up| && Count(s.peers[c].up, CLIENT_REGISTER) <= 1
            && Registers(s.inLog, c) <= 1
    ensures s.done <= |s.inLog| && (c in s.hub.clients || c in s.hub.garbage ==> Enrolled(s, c) >= 1)
  {
    ReachableInv(s);
    assert TokenOk(s, c);
    AtMostOneRegister(s, c);
  }

  lemma TrafficAt(s: Sys, d: Id)
    requires Reachable(s) && d in s.peers
    ensures d in s.hub.down && s.peers[d].seen <= |s.hub.down[d]| && s.done <= |s.inLog|
    ensures forall p :: p in s.hub.down[d] ==> DownWire(d, p) && Sourced(s, p)
    ensures s.peers[d].view == HandleAll(NEWBORN, s.hub.down[d][..s.peers[d].seen])
  {
    ReachableInv(s);
    assert TrafficOk(s, d);
  }

  lemma PacketAt(s: Sys, d: Id, p: Packet)
    requires Reachable(s) && d in s.peers && d in s.hub.down && p in s.hub.down[d]
    ensures s.done <= |s.inLog| && DownWire(d, p) && Sourced(s, p)
  {
    TrafficAt(s, d);
  }

  lemma PairAt(s: Sys, d: Id, c: Id)
    requires Reachable(s) && d in s.peers
    ensures d in s.hub.down && s.done <= |s.inLog| && StillListed(s, d) && Introduced(s, d, c)
    ensures c in s.hub.clients ==> Caused(d, s.hub.down[d], c)
    ensures RemovedOnce(s.hub.down[d], c, MayLeave(s, c))
  {
    ReachableInv(s);
    assert PairOk(s, d, c);
  }

  lemma RosterAt(s: Sys, d: Id)
    requires Reachable(s) && d in s.hub.open
    ensures d in s.peers && d in s.hub.down && d !in s.hub.garbage && 0 !in s.hub.garbage && 0 < d
    ensures RosterOf(Settled(s, d), d, s.hub.clients, Elems(s.hub.garbage), s.peers[d].spoiled)
  {
    ReachableInv(s);
    assert d in s.peers && RosterOk(s, d);
  }

  lemma OrderAt(s: Sys, d: Id, c: Id)
    requires Reachable(s) && d in s.peers && c in s.peers && d != c
    ensures d in s.hub.down && s.peers[d].born <= s.done <= |s.inLog| && s.peers[c].taken <= |s.peers[c].up|
    ensures ReadInOrder(s, c)
    ensures Served(s.hub.down[d], s.inLog[s.peers[d].born..s.done], c, d in s.hub.open)
  {
    ReachableInv(s);
    assert Relayed(s, d, c) && TokenOk(s, c) && ReadInOrder(s, c);
  }

  lemma EntryAt(s: Sys)
    requires Reachable(s) && Enabled(s, Process)
    ensures var e := s.inLog[s.done];
            && e.from in s.peers && Walks(e.packet) && (IsGame(e.packet.id) ==> SentBy(e.from, e.packet))
            && (e.packet.id == CLIENT_REGISTER ==>
                  e.from !in s.hub.clients && e.from !in s.hub.garbage && Enrolled(s, e.from) == 0)
  {
    ReachableInv(s);
    EntryWalks(s);
    var e := s.inLog[s.done];
    assert e in s.inLog && InWire(e, Enrolled(s, e.from) >= 1);
    if e.packet.id == CLIENT_REGISTER {
      RegisterIsFirst(s);
    }
  }

  lemma ProcessedAt(s: Sys, d: Id)
    requires Reachable(s) && Enabled(s, Process) && d in s.peers
    ensures Processed(s, Next(s, Process), d, s.inLog[s.done])
    ensures Next(s, Process).peers[d].spoiled == (s.peers[d].spoiled || Spoils(s, d))
    ensures var e := s.inLog[s.done];
            Next(s, Process).hub.down[d] == s.hub.down[d] + Delta(s.hub, e.from, e.packet, d)
  {
    ReachableInv(s);
    ProcessIsProcessed(s, d);
    ProcessDelta(s, d);
  }

  // ---------- membership ----------

  /** The registration token, in every reachable state: no connection ever causes two Registers, the two
      id vectors are duplicate-free and disjoint, and no channel carries two removals of one id. */
  lemma SingleToken(s: Sys)
    requires Reachable(s)
    ensures NoDup(s.hub.clients) && NoDup(s.hub.garbage) && Elems(s.hub.clients) !! Elems(s.hub.garbage)
    ensures forall c :: c in s.peers ==> Count(s.peers[c].up, CLIENT_REGISTER) <= 1 && Registers(s.inLog, c) <= 1
    ensures s.hub.down.Keys == s.peers.Keys
    ensures forall d, x :: d in s.peers ==> multiset(s.hub.down[d])[IdPacket(GAME_REMOVE_CLIENT, x)] <= 1
  {
    BaseAt(s);
    forall c | c in s.peers
      ensures Count(s.peers[c].up, CLIENT_REGISTER) <= 1 && Registers(s.inLog, c) <= 1
    {
      TokenAt(s, c);
    }
    forall d, x | d in s.peers
      ensures multiset(s.hub.down[d])[IdPacket(GAME_REMOVE_CLIENT, x)] <= 1
    {
      PairAt(s, d, x);
    }
  }

  lemma OnceInMultiset(ps: seq<Packet>, p: Packet)
    ensures p in ps <==> multiset(ps)[p] > 0
  {
  }

  /** An open client is never sent its own removal, so it never stops its threads on that account. */
  lemma OpenClientIsNotRemoved(s: Sys, d: Id)
    requires Reachable(s) && d in s.hub.open
    ensures d in s.peers && !s.peers[d].view.stopped
    ensures d in s.hub.down && IdPacket(GAME_REMOVE_CLIENT, d) !in s.hub.down[d]
  {
    RosterAt(s, d);
    PairAt(s, d, d);
    TrafficAt(s, d);
    BaseAt(s);
    var down := s.hub.down[d];
    IdPacketSubject(GAME_REMOVE_CLIENT, d);
    OnceInMultiset(down, IdPacket(GAME_REMOVE_CLIENT, d));
    assert forall p :: p in down[..s.peers[d].seen] ==> p in down;
    ViewHonest(d, down[..s.peers[d].seen]);
  }

  /** Whoever is listed after a step was listed before, or has just been enrolled for the first time. */
  lemma NewcomersAreNew(s: Sys, st: Step, x: Id)
    requires Reachable(s) && Enabled(s, st) && x in Next(s, st).hub.clients && x !in s.hub.clients
    ensures s.done <= |s.inLog| && Enrolled(s, x) == 0
  {
    ReachableInv(s);
    if st == Process {
      ListedAfterProcess(s, x);
      RegisterIsFirst(s);
    }
  }

  /** A Register of `x` has been processed by now. */
  ghost predicate EverListed(s: Sys, x: Id) {
    s.done <= |s.inLog| && Enrolled(s, x) >= 1
  }

  lemma ListedWasEnrolled(s: Sys, x: Id)
    requires Reachable(s) && x in s.hub.clients
    ensures EverListed(s, x)
  {
    BaseAt(s);
    TokenAt(s, x);
  }

  lemma EnrolledStays(s: Sys, t: Sys, x: Id)
    requires Reachable(s) && Follows(s, t) && EverListed(s, x)
    ensures EverListed(t, x) && (x !in s.hub.clients ==> x !in t.hub.clients)
  {
    ReachableInv(s);
    var st :| Enabled(s, st) && t == Next(s, st);
    EnrolledGrows(s, st, x);
    if x in t.hub.clients && x !in s.hub.clients {
      NewcomersAreNew(s, st, x);
    }
  }

  /** Once enrolled always enrolled, and once out of the list always out. */
  ghost predicate LeavesForGood(s: Sys, t: Sys, x: Id) {
    EverListed(s, x) ==> EverListed(t, x) && (x !in s.hub.clients ==> x !in t.hub.clients)
  }

  lemma {:induction false} AlwaysLeaveForGood(run: seq<Sys>, x: Id)
    requires IsRun(run)
    ensures forall k {:trigger run[k]} :: 0 < k < |run| ==> LeavesForGood(run[k - 1], run[k], x)
  {
    forall k {:trigger run[k]} | 0 < k < |run|
      ensures LeavesForGood(run[k - 1], run[k], x)
    {
      FollowsAt(run, k - 1);
      if EverListed(run[k - 1], x) {
        EnrolledStays(run[k - 1], run[k], x);
      }
    }
  }

  lemma {:induction false} LeavesForGoodTo(run: seq<Sys>, i: nat, j: nat, x: Id)
    requires i <= j < |run|
    requires forall k {:trigger run[k]} :: 0 < k < |run| ==> LeavesForGood(run[k - 1], run[k], x)
    ensures LeavesForGood(run[i], run[j], x)
    decreases j
  {
    if i < j {
      LeavesForGoodTo(run, i, j - 1, x);
      assert LeavesForGood(run[j - 1], run[j], x);
    }
  }

  lemma {:induction false} EverListedFrom(run: seq<Sys>, i: nat, k: nat, x: Id)
    requires IsRun(run) && i <= k < |run| && x in run[i].hub.clients
    ensures EverListed(run[k], x)
  {
    ReachableAt(run, i);
    ListedWasEnrolled(run[i], x);
    AlwaysLeaveForGood(run, x);
    LeavesForGoodTo(run, i, k, x);
  }

  /** An id that has left m_clientsIDs never comes back. */
  lemma {:induction false} NeverReturns(run: seq<Sys>, i: nat, j: nat, k: nat, x: Id)
    requires IsRun(run) && i < j <= k < |run|
    requires x in run[i].hub.clients && x !in run[j].hub.clients
    ensures x !in run[k].hub.clients
  {
    EverListedFrom(run, i, j, x);
    AlwaysLeaveForGood(run, x);
    LeavesForGoodTo(run, j, k, x);
  }

  /** In every reachable state the next packet in the queue meets what OnRecievePacket needs, except
      for the two guards on the walked vectors, which are part of the step. */
  lemma NextPacketIsReady(s: Sys)
    requires Reachable(s) && Enabled(s, Process)
    ensures HubOk(s.hub) && Ready(s.hub, s.inLog[s.done].from, s.inLog[s.done].packet)
  {
    BaseAt(s);
    EntryAt(s);
  }

  // ---------- the order of the walks ----------

  ghost predicate Ascending(ids: seq<Id>) {
    forall i, j :: 0 <= i < j < |ids| ==> ids[i] < ids[j]
  }

  lemma AscendingSnoc(ids: seq<Id>, x: Id)
    requires Ascending(ids) && forall y :: y in ids ==> y < x
    ensures Ascending(ids + [x])
  {
    forall i, j | 0 <= i < j < |ids + [x]|
      ensures (ids + [x])[i] < (ids + [x])[j]
    {
      assert ids[i] in ids;
    }
  }

  lemma LastIsGreatest(front: seq<Id>, last: Id)
    requires Ascending(front + [last])
    ensures Ascending(front) && forall y :: y in front ==> y < last
  {
    var ids := front + [last];
    assert forall k :: 0 <= k < |front| ==> ids[k] == front[k];
    assert ids[|front|] == last;
  }

  lemma {:induction false} DropAscends(ids: seq<Id>, gone: set<Id>)
    requires Ascending(ids)
    ensures Ascending(Drop(ids, gone))
  {
    if ids != [] {
      var front, last := ids[..|ids| - 1], ids[|ids| - 1];
      assert ids == front + [last];
      LastIsGreatest(front, last);
      DropAscends(front, gone);
      if last !in gone {
        AscendingSnoc(Drop(front, gone), last);
      }
    }
  }

  lemma {:induction false} FoundAscends(ids: seq<Id>, clients: seq<Id>, open: set<Id>)
    requires Ascending(ids)
    ensures Ascending(Found(ids, clients, open))
  {
    if ids != [] {
      var front, last := ids[..|ids| - 1], ids[|ids| - 1];
      assert ids == front + [last];
      LastIsGreatest(front, last);
      FoundAscends(front, clients, open);
      if last in clients && last !in open {
        AscendingSnoc(Found(front, clients, open), last);
      }
    }
  }

  ghost predicate InOrder(h: Hub) {
    Ascending(h.deque) && Ascending(h.garbage)
  }

  lemma ReceiveKeepsOrder(h: Hub, c: Id, p: Packet)
    requires HubOk(h) && Ready(h, c, p) && InOrder(h)
    ensures InOrder(Receive(h, c, p))
  {
    ReceiveEffect(h, c, p);
    ReceiveDeque(h, c, p);
    DropAscends(h.deque, Closed(h.deque, h.open));
    var f := Flush(h).deque;
    DropAscends(f, Closed(f, h.open));
    FoundAscends(f, Listed(h, c, p), h.open);
  }

  lemma StepKeepsOrder(s: Sys, st: Step)
    requires Reachable(s) && Enabled(s, st) && InOrder(s.hub)
    ensures InOrder(Next(s, st).hub)
  {
    BaseAt(s);
    match st {
      case Accept => AscendingSnoc(s.hub.deque, s.next);
      case Process =>
        NextPacketIsReady(s);
        ReceiveKeepsOrder(s.hub, s.inLog[s.done].from, s.inLog[s.done].packet);
      case _ =>
    }
  }

  lemma {:induction false} RunInOrder(run: seq<Sys>)
    requires IsRun(run)
    ensures InOrder(run[|run| - 1].hub)
  {
    var last := |run| - 1;
    if last > 0 {
      RunInOrder(run[..last]);
      FollowsAt(run, last - 1);
      var st :| Enabled(run[last - 1], st) && run[last] == Next(run[last - 1], st);
      StepKeepsOrder(run[last - 1], st);
    }
  }

  lemma ReachableInOrder(s: Sys)
    requires Reachable(s)
    ensures InOrder(s.hub)
  {
    var run :| IsRun(run) && run[|run| - 1] == s;
    RunInOrder(run);
  }

  /** In every reachable state the connections are walked in the order in which they were accepted, and the
      removals still to be announced wait in that order too. */
  lemma WalkedAsAccepted(s: Sys)
    requires Reachable(s)
    ensures Ascending(s.hub.deque) && Ascending(s.hub.garbage)
    ensures forall x :: x in s.hub.deque || x in s.hub.garbage ==> x < s.next
  {
    BaseAt(s);
    ReachableInOrder(s);
  }

  // ---------- causality ----------

  /** A client sends a game packet only while it holds the id the server assigned to it, and after the
      server has announced that id. */
  lemma SendersHoldTheirId(s: Sys, c: Id, kind: Word, words: seq<Word>)
    requires Reachable(s) && Enabled(s, SendGame(c, kind, words))
    ensures s.peers[c].view.id == c && c in s.hub.down
    ensures IdPacket(CLIENT_ASSIGN_ID, c) in s.hub.down[c] && IdPacket(GAME_ADD_CLIENT, c) in s.hub.down[c]
    ensures Next(s, SendGame(c, kind, words)).peers[c].up == s.peers[c].up + [Pack(kind, words, c)]
    ensures Subject(Pack(kind, words, c)) == c
  {
    TrafficAt(s, c);
    BaseAt(s);
    PackShape(kind, words, c);
    var handled := s.hub.down[c][..s.peers[c].seen];
    assert forall p :: p in handled ==> p in s.hub.down[c];
    ViewHonest(c, handled);
  }

  /** On every channel, a game packet of a still registered sender that comes after the receiver's
      AssignID comes after AddClient of that sender. */
  lemma GameAfterIntroduction(s: Sys, d: Id, c: Id, k: nat)
    requires Reachable(s) && d in s.peers && d in s.hub.down && c in s.hub.clients && k < |s.hub.down[d]|
    requires IsGame(s.hub.down[d][k].id) && Subject(s.hub.down[d][k]) == c
    requires IdPacket(CLIENT_ASSIGN_ID, d) in s.hub.down[d][..k]
    ensures IdPacket(GAME_ADD_CLIENT, c) in s.hub.down[d][..k]
  {
    PairAt(s, d, c);
  }

  lemma ToldItsIdIsListed(s: Sys, d: Id)
    requires Reachable(s) && d in s.peers && d in s.hub.open && d in s.hub.down
    requires IdPacket(CLIENT_ASSIGN_ID, d) in s.hub.down[d]
    ensures d in s.hub.clients
  {
    TrafficAt(s, d);
    PairAt(s, d, d);
    IdPacketSubject(CLIENT_ASSIGN_ID, d);
  }

  /** So it is when the server relays: a game packet of a listed sender reaches an open client that has
      been told its id only after AddClient of that sender. */
  lemma RelayedAfterIntroduction(s: Sys, t: Sys, d: Id)
    requires Reachable(s) && Enabled(s, Process) && t == Next(s, Process)
    requires var e := s.inLog[s.done]; IsGame(e.packet.id) && d != e.from && e.from in s.hub.clients
    requires d in s.peers && d in s.hub.open && d in s.hub.down && IdPacket(CLIENT_ASSIGN_ID, d) in s.hub.down[d]
    ensures d in t.hub.down && s.hub.down[d] < t.hub.down[d]
            && t.hub.down[d][|t.hub.down[d]| - 1] == s.inLog[s.done].packet
    ensures IdPacket(GAME_ADD_CLIENT, s.inLog[s.done].from) in s.hub.down[d]
  {
    var e := s.inLog[s.done];
    ToldItsIdIsListed(s, d);
    PairAt(s, d, e.from);
    ProcessedAt(s, d);
  }

  /** The state of client `d` when it comes to handle the packet at position `k` of its channel. */
  function ViewAt(s: Sys, d: Id, k: nat): View
    requires d in s.hub.down && k <= |s.hub.down[d]|
  {
    HandleAll(NEWBORN, s.hub.down[d][..k])
  }

  lemma SettledAfterNotices(s: Sys, d: Id)
    requires Reachable(s) && d in s.hub.open && d in s.hub.clients && d in s.peers && !s.peers[d].spoiled
    ensures d in s.hub.down
    ensures HandleAll(NEWBORN, s.hub.down[d] + IdPackets(GAME_REMOVE_CLIENT, s.hub.garbage)).roster
            == Drop(s.hub.clients, {d})
  {
    RosterAt(s, d);
    HandleAllAppend(NEWBORN, s.hub.down[d], IdPackets(GAME_REMOVE_CLIENT, s.hub.garbage));
    HandleRemovals(Settled(s, d), s.hub.garbage);
    WithoutEachDrops(Settled(s, d).roster, s.hub.garbage);
  }

  /** A relayed packet reaches a registered peer that knows its sender exactly if the server still lists
      the sender when it relays; otherwise the peer will not find the sender and drops the packet. */
  lemma KnownExactlyIfListed(s: Sys, t: Sys, d: Id)
    requires Reachable(s) && Enabled(s, Process) && t == Next(s, Process)
    requires IsGame(s.inLog[s.done].packet.id) && d != s.inLog[s.done].from
    requires d in s.hub.open && d in s.hub.clients && d in s.peers && !s.peers[d].spoiled
    ensures d in t.hub.down && t.hub.down[d] != []
    ensures var e, k := s.inLog[s.done], |t.hub.down[d]| - 1;
            && t.hub.down[d][k] == e.packet && Subject(e.packet) == e.from
            && (e.from in ViewAt(t, d, k).roster <==> e.from in s.hub.clients)
  {
    var e := s.inLog[s.done];
    RelayedIsLast(s, t, d);
    SenderAt(s);
    KnowsTheListed(s, d, e.from);
  }

  lemma SenderAt(s: Sys)
    requires Reachable(s) && Enabled(s, Process) && IsGame(s.inLog[s.done].packet.id)
    ensures Subject(s.inLog[s.done].packet) == s.inLog[s.done].from
  {
    EntryAt(s);
    SentByShape(s.inLog[s.done].from, s.inLog[s.done].packet);
  }

  lemma KnowsTheListed(s: Sys, d: Id, x: Id)
    requires Reachable(s) && d in s.hub.open && d in s.hub.clients && d in s.peers && !s.peers[d].spoiled && x != d
    ensures d in s.hub.down
    ensures var before := s.hub.down[d] + IdPackets(GAME_REMOVE_CLIENT, s.hub.garbage);
            x in HandleAll(NEWBORN, before).roster <==> x in s.hub.clients
  {
    SettledAfterNotices(s, d);
  }

  lemma RelayedIsLast(s: Sys, t: Sys, d: Id)
    requires s.done < |s.inLog| && Reachable(s) && Enabled(s, Process) && t == Next(s, Process)
    requires d in s.peers && d in s.hub.open
    requires IsGame(s.inLog[s.done].packet.id) && d != s.inLog[s.done].from
    ensures d in s.hub.down && d in t.hub.down
    ensures var before := s.hub.down[d] + IdPackets(GAME_REMOVE_CLIENT, s.hub.garbage);
            |t.hub.down[d]| == |before| + 1 && t.hub.down[d][..|before|] == before
              && t.hub.down[d][|before|] == s.inLog[s.done].packet
  {
    ProcessedAt(s, d);
    AppendedLast(s.hub.down[d], IdPackets(GAME_REMOVE_CLIENT, s.hub.garbage), s.inLog[s.done].packet);
  }

  lemma AppendedLast(down: seq<Packet>, notices: seq<Packet>, p: Packet)
    ensures var all, n := down + (notices + [p]), |down + notices|;
            |all| == n + 1 && all[..n] == down + notices && all[n] == p
  {
  }

  // ---------- relay ----------

  lemma {:induction false} GamesOfTake(ps: seq<Packet>, k: nat, c: Id)
    requires k <= |ps|
    ensures GamesOf(ps[..k], c) <= GamesOf(ps, c)
  {
    assert ps == ps[..k] + ps[k..];
    GamesOfAppend(ps[..k], ps[k..], c);
  }

  lemma {:induction false} InGamesSplit(log: seq<Entry>, born: nat, done: nat, c: Id)
    requires born <= done <= |log|
    ensures InGames(log[..born], c) + InGames(log[born..done], c) == InGames(log[..done], c) <= InGames(log, c)
  {
    assert log[..done] == log[..born] + log[born..done];
    InGamesAppend(log[..born], log[born..done], c);
    assert log == log[..done] + log[done..];
    InGamesAppend(log[..done], log[done..], c);
  }

  lemma PrefixOfPrefix(a: seq<Packet>, b: seq<Packet>, m: seq<Packet>, c: seq<Packet>, d: seq<Packet>)
    requires b <= m && a + m <= c <= d
    ensures a + b <= d
  {
  }

  /** The game packets of `c` on the channel of `d` are a contiguous stretch of what `c` sent, each once
      and in order: it starts with the first one the server handled after `d` was accepted, and while
      `d` is open it ends with the last one the server has handled. */
  lemma {:induction false} RelayIsExact(s: Sys, d: Id, c: Id)
    requires Reachable(s) && d in s.peers && c in s.peers && d != c
    ensures d in s.hub.down && s.peers[d].born <= s.done <= |s.inLog|
    ensures var missed := InGames(s.inLog[..s.peers[d].born], c);
            var got := GamesOf(s.hub.down[d], c);
            && missed + got <= GamesOf(s.peers[c].up, c)
            && (d in s.hub.open ==> missed + got == InGames(s.inLog[..s.done], c))
  {
    OrderAt(s, d, c);
    InGamesSplit(s.inLog, s.peers[d].born, s.done, c);
    GamesOfTake(s.peers[c].up, s.peers[c].taken, c);
    PrefixOfPrefix(InGames(s.inLog[..s.peers[d].born], c), GamesOf(s.hub.down[d], c),
                   InGames(s.inLog[s.peers[d].born..s.done], c), InGames(s.inLog, c), GamesOf(s.peers[c].up, c));
  }

  /** Packets have been taken from the connection only if it was validated. */
  ghost predicate ReadIfValidated(s: Sys, c: Id) {
    c in s.peers && s.peers[c].taken > 0 ==> s.peers[c].validated
  }

  lemma StaysReadIfValidated(s: Sys, t: Sys, c: Id)
    requires Follows(s, t) && ReadIfValidated(s, c)
    ensures ReadIfValidated(t, c)
  {
  }

  lemma {:induction false} RunReads(run: seq<Sys>, c: Id)
    requires IsRun(run)
    ensures ReadIfValidated(run[|run| - 1], c)
  {
    var last := |run| - 1;
    if last > 0 {
      RunReads(run[..last], c);
      StaysReadIfValidated(run[last - 1], run[last], c);
    }
  }

  /** The server validates a client, and reads from a validated one, only while its socket is open; and it
      accepts connections just below eight registered ids. */
  lemma OnlyTheAdmittedAreRead(s: Sys, c: Id, st: Step)
    requires Reachable(s) && c in s.peers && Enabled(s, st)
    ensures s.peers[c].taken > 0 ==> s.peers[c].validated
    ensures c in Next(s, st).peers
    ensures Next(s, st).peers[c].taken != s.peers[c].taken ==> s.peers[c].validated && c in s.hub.open
    ensures Next(s, st).peers[c].validated != s.peers[c].validated ==> c in s.hub.open
    ensures Enabled(s, Accept) <==> |s.hub.clients| < 8 && s.next < 0xFFFF_FFFF
  {
    BaseAt(s);
    var run :| IsRun(run) && run[|run| - 1] == s;
    RunReads(run, c);
  }

  lemma GameOnWire(d: Id, p: Packet)
    requires DownWire(d, p) && IsGame(p.id)
    ensures Subject(p) != d
  {
    IdPacketSubject(CLIENT_ASSIGN_ID, d);
  }

  /** Nobody receives its own game packets. */
  lemma {:induction false} NeverBackToSender(s: Sys, c: Id)
    requires Reachable(s) && c in s.peers
    ensures c in s.hub.down && GamesOf(s.hub.down[c], c) == []
  {
    TrafficAt(s, c);
    forall p | p in s.hub.down[c]
      ensures !IsGame(p.id) || Subject(p) != c
    {
      if IsGame(p.id) {
        GameOnWire(c, p);
      }
    }
    NoGames(s.hub.down[c], c);
  }

  // ---------- rosters ----------

  /** The client's state after it will have handled what is still in flight to it. */
  function Eventually(s: Sys, d: Id): View
    requires d in s.peers && d in s.hub.down && s.peers[d].seen <= |s.hub.down[d]|
  {
    HandleAll(s.peers[d].view, s.hub.down[d][s.peers[d].seen..])
  }

  lemma EventuallySettles(s: Sys, d: Id)
    requires Reachable(s) && d in s.peers && d in s.hub.down && s.peers[d].seen <= |s.hub.down[d]|
    ensures Eventually(s, d) == Settled(s, d)
  {
    TrafficAt(s, d);
    HandleInTwo(s.hub.down[d], s.peers[d].seen);
  }

  lemma {:induction false} HandleInTwo(ps: seq<Packet>, n: nat)
    requires n <= |ps|
    ensures HandleAll(HandleAll(NEWBORN, ps[..n]), ps[n..]) == HandleAll(NEWBORN, ps)
  {
    assert ps == ps[..n] + ps[n..];
    HandleAllAppend(NEWBORN, ps[..n], ps[n..]);
  }

  lemma ExactUnlessSpoiled(s: Sys, d: Id)
    requires Reachable(s) && d in s.hub.open && d in s.hub.clients
    ensures d in s.peers && d in s.hub.down && s.peers[d].seen <= |s.hub.down[d]|
    ensures Exact(Eventually(s, d), d, s.hub.clients, Elems(s.hub.garbage)) <==> !s.peers[d].spoiled
  {
    RosterAt(s, d);
    TrafficAt(s, d);
    EventuallySettles(s, d);
    if s.peers[d].spoiled {
      HauntedIsNotExact(Settled(s, d), d, s.hub.clients, Elems(s.hub.garbage));
    }
  }

  /** The mark is set by the client's own registration and by nothing else. */
  lemma SpoiledAtRegistration(s: Sys, st: Step, d: Id)
    requires Reachable(s) && Enabled(s, st) && d in s.peers
    ensures var t := Next(s, st);
            d in t.peers && (t.peers[d].spoiled <==> s.peers[d].spoiled || (st == Process && Spoils(s, d)))
  {
    BaseAt(s);
    if st != Process {
      SpoiledKept(s, st, d);
    }
  }

  /** The server handles the Register of `d`. */
  ghost predicate Registering(s: Sys, t: Sys, d: Id) {
    && Enabled(s, Process) && t == Next(s, Process)
    && s.inLog[s.done].from == d && s.inLog[s.done].packet.id == CLIENT_REGISTER
  }

  ghost predicate RegistersAt(run: seq<Sys>, i: nat, d: Id) {
    i + 1 < |run| && Registering(run[i], run[i + 1], d)
  }

  /** What has been sent to `d` so far makes it list an id that is connected. */
  ghost predicate HasHeardOfOthers(s: Sys, d: Id) {
    d in s.hub.down && exists x :: x in HandleAll(NEWBORN, s.hub.down[d]).roster && x in s.hub.open
  }

  lemma RegisteredNow(s: Sys, t: Sys, d: Id)
    requires Reachable(s) && Registering(s, t, d)
    ensures d in s.peers && d in t.peers && EverListed(t, d)
    ensures d in s.hub.open ==> (t.peers[d].spoiled <==> HasHeardOfOthers(s, d))
  {
    EntryAt(s);
    BaseAt(s);
    EnrolledNext(s, d);
    SpoiledAtRegistration(s, Process, d);
    if d in s.hub.open {
      RosterAt(s, d);
    }
  }

  lemma SpoiledStays(s: Sys, t: Sys, d: Id)
    requires Reachable(s) && Follows(s, t) && d in s.peers && EverListed(s, d)
    ensures d in t.peers && EverListed(t, d) && t.peers[d].spoiled == s.peers[d].spoiled
  {
    EnrolledStays(s, t, d);
    var st :| Enabled(s, st) && t == Next(s, st);
    SpoiledAtRegistration(s, st, d);
    if st == Process {
      EntryAt(s);
    }
  }

  lemma {:induction false} SpoiledAlong(run: seq<Sys>, k: nat, d: Id)
    requires IsRun(run) && k + 1 < |run| && d in run[k].peers && EverListed(run[k], d)
    ensures d in run[k + 1].peers && EverListed(run[k + 1], d)
    ensures run[k + 1].peers[d].spoiled == run[k].peers[d].spoiled
  {
    FollowsAt(run, k);
    SpoiledStays(run[k], run[k + 1], d);
  }

  lemma {:induction false} SpoiledForever(run: seq<Sys>, i: nat, j: nat, d: Id)
    requires IsRun(run) && i <= j < |run| && d in run[i].peers && EverListed(run[i], d)
    ensures d in run[j].peers && EverListed(run[j], d) && run[j].peers[d].spoiled == run[i].peers[d].spoiled
    decreases j
  {
    if i < j {
      SpoiledForever(run, i, j - 1, d);
      SpoiledAlong(run, j - 1, d);
    }
  }

  /** A connection stays known, and does not reopen. */
  ghost predicate OnlyCloses(s: Sys, t: Sys, d: Id) {
    d in s.peers ==> d in t.peers && (d in t.hub.open ==> d in s.hub.open)
  }

  lemma StepOnlyCloses(s: Sys, t: Sys, d: Id)
    requires Reachable(s) && Follows(s, t)
    ensures OnlyCloses(s, t, d)
  {
    BaseAt(s);
    if d in s.peers {
      var st :| Enabled(s, st) && t == Next(s, st);
      if st == Process {
        ProcessedAt(s, d);
      } else {
        HubKept(s, st, d);
      }
    }
  }

  lemma {:induction false} AlwaysOnlyCloses(run: seq<Sys>, d: Id)
    requires IsRun(run)
    ensures forall k {:trigger run[k]} :: 0 < k < |run| ==> OnlyCloses(run[k - 1], run[k], d)
  {
    forall k {:trigger run[k]} | 0 < k < |run|
      ensures OnlyCloses(run[k - 1], run[k], d)
    {
      FollowsAt(run, k - 1);
      StepOnlyCloses(run[k - 1], run[k], d);
    }
  }

  lemma {:induction false} OnlyClosesTo(run: seq<Sys>, i: nat, j: nat, d: Id)
    requires i <= j < |run|
    requires forall k {:trigger run[k]} :: 0 < k < |run| ==> OnlyCloses(run[k - 1], run[k], d)
    ensures OnlyCloses(run[i], run[j], d)
    decreases j
  {
    if i < j {
      OnlyClosesTo(run, i, j - 1, d);
      assert OnlyCloses(run[j - 1], run[j], d);
    }
  }

  lemma {:induction false} WasOpen(run: seq<Sys>, i: nat, j: nat, d: Id)
    requires IsRun(run) && i <= j < |run| && d in run[i].peers
    ensures d in run[j].peers && (d in run[j].hub.open ==> d in run[i].hub.open)
  {
    AlwaysOnlyCloses(run, d);
    OnlyClosesTo(run, i, j, d);
  }

  lemma RegisterIsHandled(s: Sys, t: Sys, d: Id)
    requires Reachable(s) && Follows(s, t) && EverListed(t, d) && !EverListed(s, d)
    ensures Registering(s, t, d)
  {
    ReachableInv(s);
    var st :| Enabled(s, st) && t == Next(s, st);
    EnrolledGrows(s, st, d);
    if st == Process {
      EnrolledNext(s, d);
    }
  }

  lemma {:induction false} FirstListedAt(run: seq<Sys>, k: nat, d: Id)
    requires IsRun(run) && k + 1 < |run| && EverListed(run[k + 1], d) && !EverListed(run[k], d)
    ensures RegistersAt(run, k, d)
  {
    FollowsAt(run, k);
    RegisterIsHandled(run[k], run[k + 1], d);
  }

  lemma {:induction false} NobodyListedAtFirst(run: seq<Sys>, d: Id)
    requires IsRun(run)
    ensures !EverListed(run[0], d)
  {
    RunPrefix(run, 1);
  }

  lemma {:induction false} WasRegistered(run: seq<Sys>, k: nat, d: Id)
    requires IsRun(run) && k < |run| && EverListed(run[k], d)
    ensures exists i: nat :: RegistersAt(run, i, d)
    decreases k
  {
    NobodyListedAtFirst(run, d);
    if EverListed(run[k - 1], d) {
      WasRegistered(run, k - 1, d);
    } else {
      FirstListedAt(run, k - 1, d);
    }
  }

  lemma {:induction false} RegisteredAlong(run: seq<Sys>, i: nat, d: Id)
    requires IsRun(run) && RegistersAt(run, i, d)
    ensures d in run[i].peers && d in run[i + 1].peers && EverListed(run[i + 1], d)
    ensures d in run[i].hub.open ==> (run[i + 1].peers[d].spoiled <==> HasHeardOfOthers(run[i], d))
  {
    ReachableAt(run, i);
    RegisteredNow(run[i], run[i + 1], d);
  }

  lemma {:induction false} SpoiledIfHeard(run: seq<Sys>, i: nat, j: nat, d: Id)
    requires IsRun(run) && RegistersAt(run, i, d) && i < j < |run| && d in run[j].hub.open
    ensures d in run[j].peers && (run[j].peers[d].spoiled <==> HasHeardOfOthers(run[i], d))
  {
    RegisteredAlong(run, i, d);
    WasOpen(run, i, j, d);
    SpoiledForever(run, i + 1, j, d);
  }

  /** Roster agreement, in every run: a registered open client that handles what is in flight ends up
      with exactly the server's list (without itself and without ids whose removal is due) if and only
      if, when its Register was handled, it had not been told of an id that was still connected. */
  lemma {:induction false} RosterAgreement(run: seq<Sys>, d: Id)
    requires IsRun(run)
    requires var s := run[|run| - 1]; d in s.hub.open && d in s.hub.clients
    ensures var s := run[|run| - 1]; d in s.peers && d in s.hub.down && s.peers[d].seen <= |s.hub.down[d]|
    ensures exists i: nat :: RegistersAt(run, i, d)
    ensures var s := run[|run| - 1];
            forall i: nat :: RegistersAt(run, i, d) ==>
              (Exact(Eventually(s, d), d, s.hub.clients, Elems(s.hub.garbage)) <==> !HasHeardOfOthers(run[i], d))
  {
    var last := |run| - 1;
    ReachableAt(run, last);
    ExactUnlessSpoiled(run[last], d);
    ListedWasEnrolled(run[last], d);
    WasRegistered(run, last, d);
    forall i: nat | RegistersAt(run, i, d)
      ensures run[last].peers[d].spoiled <==> HasHeardOfOthers(run[i], d)
    {
      SpoiledIfHeard(run, i, last, d);
    }
  }

  /** No other open connection is unregistered when a Register is processed. */
  ghost predicate NoOverlap(s: Sys)
    requires s.done < |s.inLog|
  {
    s.inLog[s.done].packet.id == CLIENT_REGISTER ==>
      forall d :: d in s.hub.open && d != s.inLog[s.done].from ==> d in s.hub.clients
  }

  ghost predicate TidilyFollows(s: Sys, t: Sys) {
    exists st :: Enabled(s, st) && t == Next(s, st) && (st == Process ==> NoOverlap(s))
  }

  /** A run whose registrations do not overlap. */
  ghost predicate TidyRun(run: seq<Sys>) {
    run != [] &&
    if |run| == 1 then Initial(run[0])
    else TidyRun(run[..|run| - 1]) && TidilyFollows(run[|run| - 2], run[|run| - 1])
  }

  lemma {:induction false} TidyRunIsRun(run: seq<Sys>)
    requires TidyRun(run)
    ensures IsRun(run)
  {
    if |run| > 1 {
      TidyRunIsRun(run[..|run| - 1]);
      var s := run[|run| - 2];
      var st :| Enabled(s, st) && run[|run| - 1] == Next(s, st) && (st == Process ==> NoOverlap(s));
      assert Follows(s, run[|run| - 1]);
    }
  }

  /** With non-overlapping registrations nobody hears of others before being registered. */
  ghost predicate TidyAt(s: Sys, d: Id) {
    d in s.hub.open && d in s.hub.down && d in s.peers ==>
      !s.peers[d].spoiled && (d !in s.hub.clients ==> Settled(s, d).roster == [])
  }

  lemma {:induction false} WithoutEachOfNothing(ids: seq<Id>)
    ensures WithoutEach([], ids) == []
  {
    if ids != [] {
      WithoutEachOfNothing(ids[..|ids| - 1]);
    }
  }

  lemma RegistrantIsListed(h: Hub, d: Id)
    requires d in h.open
    ensures d in Living(h.clients + [d], h.open)
  {
    assert (h.clients + [d])[|h.clients|] == d;
  }

  lemma TidyProcess(s: Sys, t: Sys, d: Id)
    requires Reachable(s) && Enabled(s, Process) && t == Next(s, Process) && NoOverlap(s) && TidyAt(s, d)
    requires d in s.peers
    ensures TidyAt(t, d)
  {
    var e := s.inLog[s.done];
    EntryAt(s);
    ProcessedAt(s, d);
    if d in s.hub.open {
      RosterAt(s, d);
      if d !in s.hub.clients {
        if e.packet.id == CLIENT_REGISTER {
          RegistrantIsListed(s.hub, d);
        } else {
          HandleRelayDelta(Settled(s, d), s.hub, e.from, e.packet, d);
          WithoutEachOfNothing(s.hub.garbage);
        }
      } else {
        LivingMembers(Listed(s.hub, e.from, e.packet), s.hub.open, d);
      }
    }
  }

  lemma TidyOther(s: Sys, st: Step, d: Id)
    requires Reachable(s) && Enabled(s, st) && st != Process && TidyAt(s, d) && d in s.peers
    ensures TidyAt(Next(s, st), d)
  {
    BaseAt(s);
    SpoiledKept(s, st, d);
    HubKept(s, st, d);
    if st == Validate(d) {
      HandleOne(NEWBORN, s.hub.down[d], NewPacket(CLIENT_ACCEPTED));
    }
  }

  lemma TidyNewborn(s: Sys, st: Step, d: Id)
    requires Reachable(s) && Enabled(s, st) && d !in s.peers
    ensures TidyAt(Next(s, st), d)
  {
    BaseAt(s);
  }

  lemma TidyStep(s: Sys, t: Sys, d: Id)
    requires Reachable(s) && TidilyFollows(s, t) && TidyAt(s, d)
    ensures TidyAt(t, d)
  {
    var st :| Enabled(s, st) && t == Next(s, st) && (st == Process ==> NoOverlap(s));
    if d !in s.peers {
      TidyNewborn(s, st, d);
    } else if st == Process {
      TidyProcess(s, t, d);
    } else {
      TidyOther(s, st, d);
    }
  }

  lemma {:induction false} TidyRunReaches(run: seq<Sys>)
    requires TidyRun(run)
    ensures Reachable(run[|run| - 1])
  {
    TidyRunIsRun(run);
  }

  lemma {:induction false} TidyRunIsTidy(run: seq<Sys>, d: Id)
    requires TidyRun(run)
    ensures TidyAt(run[|run| - 1], d)
  {
    var last := |run| - 1;
    if last > 0 {
      TidyRunIsTidy(run[..last], d);
      TidyRunReaches(run[..last]);
      assert run[..last][last - 1] == run[last - 1];
      TidyStep(run[last - 1], run[last], d);
    }
  }

  /** Roster agreement for every run with non-overlapping registrations. */
  lemma {:induction false} RosterAgreementTidy(run: seq<Sys>, d: Id)
    requires TidyRun(run)
    requires var s := run[|run| - 1]; d in s.hub.open && d in s.hub.clients
    ensures var s := run[|run| - 1];
            && d in s.peers && d in s.hub.down && s.peers[d].seen <= |s.hub.down[d]|
            && Exact(Eventually(s, d), d, s.hub.clients, Elems(s.hub.garbage))
  {
    TidyRunReaches(run);
    TidyRunIsTidy(run, d);
    ExactUnlessSpoiled(run[|run| - 1], d);
  }
}
