/** Nothing gets stuck in the whole system, and the links rule out no run of the protocol. */
module Progress {
  import opened Words
  import opened Lists
  import opened Packets
  import opened Hubs
  import opened GamePackets
  import opened Relay
  import opened RelayTokens
  import opened RelayTraffic
  import opened RelayTheorems
  import opened EndToEnd
  import opened Systems
  import RelayRuns
  import T = Transport
  import Framing
  import Delivery
  import Handshake
  import GameMessages

  // ---------- one link moves, the rest of the world stands still ----------

  function WithDown(w: World, d: Id, n: T.Net): World {
    w.(downs := w.downs[d := n])
  }

  function WithUp(w: World, c: Id, n: T.Net): World {
    w.(ups := w.ups[c := n])
  }

  lemma TwiceWith(m: map<Id, T.Net>, b: Id, n: T.Net, l: T.Net)
    ensures m[b := n][b := l] == m[b := l]
  {
  }

  /** What a link can do by itself it can do in the system. */
  lemma {:induction false} DownPlays(w: World, d: Id, es: seq<T.Event>)
    requires Reached(w) && d in w.downs && Delivery.Quietly(w.downs[d], es) && T.Play(w.downs[d], es).Some?
    ensures Reached(WithDown(w, d, T.Play(w.downs[d], es).value))
    decreases |es|
  {
    if es == [] {
      SameNets(w.downs, d);
    } else {
      var n := T.Next(w.downs[d], es[0]);
      ReachedNext(w, DownMove(d, es[0]), WithDown(w, d, n));
      DownPlays(WithDown(w, d, n), d, es[1..]);
      TwiceWith(w.downs, d, n, T.Play(n, es[1..]).value);
    }
  }

  lemma {:induction false} UpPlays(w: World, c: Id, es: seq<T.Event>)
    requires Reached(w) && c in w.ups && Delivery.Quietly(w.ups[c], es) && T.Play(w.ups[c], es).Some?
    ensures Reached(WithUp(w, c, T.Play(w.ups[c], es).value))
    decreases |es|
  {
    if es == [] {
      SameNets(w.ups, c);
    } else {
      var n := T.Next(w.ups[c], es[0]);
      ReachedNext(w, UpMove(c, es[0]), WithUp(w, c, n));
      UpPlays(WithUp(w, c, n), c, es[1..]);
      TwiceWith(w.ups, c, n, T.Play(n, es[1..]).value);
    }
  }

  /** Both ends of the link are open. */
  predicate Ends(n: T.Net) {
    n.snd.open && n.rcv.open
  }

  /** The link to `d` can hand up all it has been given while nothing else happens. */
  lemma DownDelivers(w: World, d: Id) returns (n: T.Net)
    requires Reached(w) && d in w.downs && d !in w.rushed && Ends(w.downs[d])
    ensures Delivery.Delivered(w.downs[d], n) && Reached(WithDown(w, d, n))
  {
    DownAt(w, d);
    Delivery.NothingGetsStuck(w.downs[d]);
    var es :| Delivery.Delivers(w.downs[d], es);
    DownPlays(w, d, es);
    n := T.Play(w.downs[d], es).value;
  }

  /** And so can the link from `c`. */
  lemma UpDelivers(w: World, c: Id) returns (n: T.Net)
    requires Reached(w) && c in w.ups && Ends(w.ups[c])
    ensures Delivery.Delivered(w.ups[c], n) && Reached(WithUp(w, c, n))
  {
    UpAt(w, c);
    Delivery.NothingGetsStuck(w.ups[c]);
    var es :| Delivery.Delivers(w.ups[c], es);
    UpPlays(w, c, es);
    n := T.Play(w.ups[c], es).value;
  }

  // ---------- what arrives at the server is what was sent ----------

  /** A Register is the first packet of its connection. */
  ghost predicate RegisterFirst(s: Sys, c: Id) {
    c in s.peers ==> forall k :: 0 < k < |s.peers[c].up| ==> s.peers[c].up[k].id != CLIENT_REGISTER
  }

  lemma GamesFollowRegister(s: Sys, c: Id)
    requires Reachable(s) && c in s.peers && s.peers[c].up != []
    ensures Count(s.peers[c].up, CLIENT_REGISTER) >= 1
  {
    ReachableInv(s);
    assert TokenOk(s, c) && TrafficOk(s, c);
    CountTake(s.peers[c].up, s.peers[c].taken, CLIENT_REGISTER);
    RegistersTake(s.inLog, s.done, c);
    var p := s.peers[c].up[0];
    assert p in s.peers[c].up && UpWire(c, Enrolled(s, c) >= 1, p);
    if p == NewPacket(CLIENT_REGISTER) {
      CountedIfThere(s.peers[c].up, 0, CLIENT_REGISTER);
    }
  }

  lemma {:induction false} OneMoreRegister(up: seq<Packet>, more: seq<Packet>)
    requires more != [] && more[0].id == CLIENT_REGISTER && Count(up + more, CLIENT_REGISTER) <= 1
    ensures Count(up, CLIENT_REGISTER) == 0
  {
    CountAppend(up, more, CLIENT_REGISTER);
    CountedIfThere(more, 0, CLIENT_REGISTER);
  }

  lemma FirstAfterHandle(s: Sys, c: Id)
    requires Reachable(s) && Enabled(s, HandleNext(c)) && RegisterFirst(s, c)
    ensures RegisterFirst(Next(s, HandleNext(c)), c)
  {
    var p := s.hub.down[c][s.peers[c].seen];
    var t := Next(s, HandleNext(c));
    if p.id == CLIENT_ACCEPTED {
      ReachableNext(s, HandleNext(c));
      TokenAt(t, c);
      OneMoreRegister(s.peers[c].up, Replies(p));
      if s.peers[c].up != [] {
        GamesFollowRegister(s, c);
      }
    }
  }

  lemma FirstAfterSend(s: Sys, c: Id, kind: Word, words: seq<Word>)
    requires Enabled(s, SendGame(c, kind, words)) && RegisterFirst(s, c)
    ensures RegisterFirst(Next(s, SendGame(c, kind, words)), c)
  {
    GameMessages.PackShape(kind, words, s.peers[c].view.id);
  }

  lemma FirstElsewhere(s: Sys, st: Step, c: Id)
    requires Reachable(s) && Enabled(s, st) && RegisterFirst(s, c) && st != HandleNext(c)
    requires !(st.SendGame? && st.c == c)
    ensures RegisterFirst(Next(s, st), c)
  {
  }

  lemma FirstStep(s: Sys, t: Sys, c: Id)
    requires Reachable(s) && Follows(s, t) && RegisterFirst(s, c)
    ensures RegisterFirst(t, c)
  {
    var st :| Enabled(s, st) && t == Next(s, st);
    if st == HandleNext(c) {
      FirstAfterHandle(s, c);
    } else if st.SendGame? && st.c == c {
      FirstAfterSend(s, c, st.kind, st.words);
    } else {
      FirstElsewhere(s, st, c);
    }
  }

  lemma {:induction false} FirstAtStart(run: seq<Sys>, c: Id)
    requires IsRun(run)
    ensures RegisterFirst(run[0], c)
  {
    RunPrefix(run, 1);
  }

  /** The step keeps it. */
  ghost predicate KeepsFirst(s: Sys, t: Sys, c: Id) {
    RegisterFirst(s, c) ==> RegisterFirst(t, c)
  }

  lemma {:induction false} AlwaysKeepsFirst(run: seq<Sys>, c: Id)
    requires IsRun(run)
    ensures forall k {:trigger run[k]} :: 0 < k < |run| ==> KeepsFirst(run[k - 1], run[k], c)
  {
    forall k {:trigger run[k]} | 0 < k < |run|
      ensures KeepsFirst(run[k - 1], run[k], c)
    {
      FollowsAt(run, k - 1);
      if RegisterFirst(run[k - 1], c) {
        FirstStep(run[k - 1], run[k], c);
      }
    }
  }

  lemma {:induction false} FirstBy(run: seq<Sys>, k: nat, c: Id)
    requires k < |run| && RegisterFirst(run[0], c)
    requires forall i {:trigger run[i]} :: 0 < i < |run| ==> KeepsFirst(run[i - 1], run[i], c)
    ensures RegisterFirst(run[k], c)
    decreases k
  {
    if k > 0 {
      FirstBy(run, k - 1, c);
      assert KeepsFirst(run[k - 1], run[k], c);
    }
  }

  lemma RegisterComesFirst(s: Sys, c: Id)
    requires Reachable(s)
    ensures RegisterFirst(s, c)
  {
    var run :| IsRun(run) && run[|run| - 1] == s;
    FirstAtStart(run, c);
    AlwaysKeepsFirst(run, c);
    FirstBy(run, |run| - 1, c);
  }

  lemma FirstIsFresh(got: seq<Packet>)
    requires got != [] && Framing.Shaped(got, 0) && got[0].size == 0
    ensures got[0].body == []
  {
    assert got[..0] == [];
  }

  /** No stale body reaches the server: whatever it is handed is just what was sent. */
  lemma ServerGetsWhatWasSent(w: World, c: Id, k: nat)
    requires Reached(w) && c in w.ups && k < |w.ups[c].rcv.got|
    ensures c in w.sys.peers && k < |w.sys.peers[c].up| && w.ups[c].rcv.got[k] == w.sys.peers[c].up[k]
  {
    UpAt(w, c);
    var up, got := w.sys.peers[c].up, w.ups[c].rcv.got;
    LinkIsFaithful(w.ups[c], up, w.sys.peers[c].taken, k);
    RegisterComesFirst(w.sys, c);
    ReachableInv(w.sys);
    assert TrafficOk(w.sys, c) && up[k] in up;
    if up[k] == NewPacket(CLIENT_REGISTER) {
      Framing.OrderlyReachableOk(w.ups[c]);
      FirstIsFresh(got);
    } else {
      SentByShape(c, up[k]);
    }
  }

  // ---------- the links rule out no run of the protocol ----------

  /** Both ends of every link are open and no challenge has been overtaken. */
  ghost predicate Smooth(w: World) {
    && Reached(w) && w.rushed == {}
    && (forall c :: c in w.downs ==> Ends(w.downs[c])) && (forall c :: c in w.ups ==> Ends(w.ups[c]))
  }

  lemma SmoothDown(w: World, d: Id) returns (v: World)
    requires Smooth(w) && d in w.downs
    ensures Smooth(v) && v.sys == w.sys && v.issued == w.issued && v.ups == w.ups && v.downs.Keys == w.downs.Keys
    ensures v.downs[d].rcv.challenge.Some? && |v.downs[d].rcv.got| == |v.downs[d].snd.sends|
  {
    var n := DownDelivers(w, d);
    v := WithDown(w, d, n);
  }

  lemma SmoothUp(w: World, c: Id) returns (v: World)
    requires Smooth(w) && c in w.ups
    ensures Smooth(v) && v.sys == w.sys && v.issued == w.issued && v.downs == w.downs && v.ups.Keys == w.ups.Keys
    ensures v.ups[c].rcv.challenge.Some? && |v.ups[c].rcv.got| == |v.ups[c].snd.sends|
  {
    var n := UpDelivers(w, c);
    v := WithUp(w, c, n);
  }

  lemma OntoIsOpen(n: T.Net, channel: seq<Packet>)
    requires Ends(n)
    ensures Ends(Onto(n, channel))
  {
  }

  /** A protocol step is made when its turn has come. */
  lemma SmoothStep(w: World, m: Move) returns (v: World)
    requires Smooth(w) && Allowed(w, m) && StepOf(w, m).Some? && !m.Enter?
    ensures Smooth(v) && Enabled(w.sys, StepOf(w, m).value) && v.sys == Next(w.sys, StepOf(w, m).value)
  {
    RefinesProtocol(w, m);
    v := After(w, Next(w.sys, StepOf(w, m).value));
    ReachedNext(w, m, v);
    forall c | c in v.downs
      ensures Ends(v.downs[c])
    {
      OntoIsOpen(w.downs[c], v.sys.hub.down[c]);
    }
    forall c | c in v.ups
      ensures Ends(v.ups[c])
    {
      OntoIsOpen(w.ups[c], v.sys.peers[c].up);
    }
  }

  lemma DoEnter(w: World, challenge: bv64) returns (v: World)
    requires Smooth(w) && Enabled(w.sys, Accept)
    ensures Smooth(v) && v.sys == Next(w.sys, Accept)
  {
    v := Entered(w, Next(w.sys, Accept), w.sys.next, challenge);
    ReachedNext(w, Enter(challenge), v);
  }

  lemma ChallengeIsEight(n: T.Net)
    requires T.OrderlyReachable(n) && n.rcv.challenge.Some?
    ensures |n.rcv.challenge.value| == T.GREETING_SIZE
  {
    Framing.OrderlyReachableOk(n);
  }

  /** The client reads its challenge and writes its answer. */
  lemma DoAnswer(w: World, c: Id) returns (v: World)
    requires Smooth(w) && c in w.sys.peers
    ensures Smooth(v) && v.sys == w.sys && v.issued == w.issued && c in v.ups
  {
    LinksAt(w, c);
    if c in w.ups {
      v := w;
    } else {
      var u := SmoothDown(w, c);
      DownAt(u, c);
      ChallengeIsEight(u.downs[c]);
      var read := Handshake.Word64(u.downs[c].rcv.challenge.value);
      Handshake.ImageIsOnto(u.downs[c].rcv.challenge.value);
      v := Answered(u, c, read);
      ReachedNext(u, Answer(c, read), v);
    }
  }

  lemma DoAdmit(w: World, c: Id) returns (v: World)
    requires Smooth(w) && Enabled(w.sys, Validate(c))
    ensures Smooth(v) && v.sys == Next(w.sys, Validate(c))
  {
    var u := DoAnswer(w, c);
    u := SmoothUp(u, c);
    HandshakeSucceeds(u, c);
    v := SmoothStep(u, Admit(c));
  }

  lemma DoHandle(w: World, c: Id) returns (v: World)
    requires Smooth(w) && Enabled(w.sys, HandleNext(c))
    ensures Smooth(v) && v.sys == Next(w.sys, HandleNext(c))
  {
    LinksAt(w, c);
    var u := SmoothDown(w, c);
    DownAt(u, c);
    v := SmoothStep(u, Handles(c));
  }

  lemma TakesAsSent(w: World, c: Id)
    requires Reached(w) && c in w.sys.peers && w.sys.peers[c].validated
    ensures c in w.ups
  {
    LinksAt(w, c);
  }

  lemma DoFetch(w: World, c: Id, q: Packet) returns (v: World)
    requires Smooth(w) && Enabled(w.sys, Take(c, q)) && q == w.sys.peers[c].up[w.sys.peers[c].taken]
    ensures Smooth(v) && v.sys == Next(w.sys, Take(c, q))
  {
    TakesAsSent(w, c);
    var u := SmoothUp(w, c);
    UpAt(u, c);
    ServerGetsWhatWasSent(u, c, u.sys.peers[c].taken);
    v := SmoothStep(u, Fetch(c));
  }

  lemma DoStep(w: World, st: Step) returns (v: World)
    requires Smooth(w) && Enabled(w.sys, st) && Whole(w.sys, st)
    ensures Smooth(v) && v.sys == Next(w.sys, st)
  {
    match st
    case Accept => v := DoEnter(w, 0);
    case Validate(c) => v := DoAdmit(w, c);
    case HandleNext(c) => v := DoHandle(w, c);
    case Take(c, q) => v := DoFetch(w, c, q);
    case _ => v := SmoothStep(w, Local(st));
  }

  /** Whatever the protocol can do, in whatever order and with whatever closing, can be had with the links under
      it, as long as the server takes the packets as they were sent; and it never takes others. */
  lemma {:induction false} StepsAreRealised(w: World, sts: seq<Step>) returns (v: World)
    requires Smooth(w) && Go(w.sys, sts).Some?
    ensures Smooth(v) && v.sys == Go(w.sys, sts).value
    decreases |sts|
  {
    v := w;
    if sts != [] {
      v := DoStep(w, sts[0]);
      v := StepsAreRealised(v, sts[1..]);
    }
  }

  lemma EmptyWorld() returns (w: World)
    ensures Smooth(w) && w.sys == START
  {
    w := World(START, map[], map[], map[], {});
    assert IsHistory([w]);
  }

  /** So every state of a run of that kind is the protocol's state in some system. */
  lemma RunsAreRealised(s: Sys) returns (w: World)
    requires Regular(s)
    ensures Smooth(w) && w.sys == s
  {
    var sts :| Go(START, sts) == Some(s);
    w := EmptyWorld();
    w := StepsAreRealised(w, sts);
  }

  lemma {:induction false} GoReaches(s: Sys, sts: seq<Step>)
    requires Reachable(s) && Go(s, sts).Some?
    ensures Reachable(Go(s, sts).value)
    decreases |sts|
  {
    if sts != [] {
      ReachableNext(s, sts[0]);
      GoReaches(Next(s, sts[0]), sts[1..]);
    }
  }

  // ---------- a relayed packet can be read ----------

  /** Client `d` has been handed all of its channel. */
  ghost predicate AllIn(x: World, d: Id) {
    && Reached(x) && d in x.downs && d !in x.rushed && d in x.sys.hub.down
    && |x.downs[d].rcv.got| == |x.sys.hub.down[d]|
  }

  lemma LastArrives(x: World, d: Id, e: Entry)
    requires AllIn(x, d) && IsLast(x.sys, d, e) && IsGame(e.packet.id)
    ensures x.downs[d].rcv.got[|x.sys.hub.down[d]| - 1] == e.packet
  {
    var k := |x.sys.hub.down[d]| - 1;
    DownAt(x, d);
    LinkIsFaithful(x.downs[d], x.sys.hub.down[d], x.sys.peers[d].seen, k);
    GetsWhatWasRelayed(x, d, k);
  }

  lemma IsReadAt(x: World, d: Id, k: nat, e: Entry, gs: seq<GamePacket>)
    requires AllIn(x, d) && k + 1 == |x.sys.hub.down[d]| && x.downs[d].rcv.got[k] == e.packet
    requires MadeOf(e.packet, Subject(e.packet), gs) && Roomy(x.sys, d)
    ensures ReadsAt(x, d, k, e.packet, Subject(e.packet), gs)
  {
    IsReadAsMade(x, d, k, e.packet, gs);
  }

  lemma LastIsRead(x: World, d: Id, e: Entry, gs: seq<GamePacket>)
    requires AllIn(x, d) && IsLast(x.sys, d, e) && MadeOf(e.packet, e.from, gs) && Roomy(x.sys, d)
    ensures ReadsAt(x, d, |x.sys.hub.down[d]| - 1, e.packet, e.from, gs)
  {
    var k := |x.sys.hub.down[d]| - 1;
    LastArrives(x, d, e);
    IsReadAt(x, d, k, e, gs);
  }

  lemma CanComeIn(v: World, d: Id) returns (n: T.Net)
    requires Reached(v) && d in v.downs && d !in v.rushed && Ends(v.downs[d])
    ensures AllIn(WithDown(v, d, n), d)
  {
    DownAt(v, d);
    n := DownDelivers(v, d);
  }

  /** All of the channel of `d` is in, and it reads the packet of `e`, the last one, as made of `gs`. */
  ghost predicate ReadsLast(x: World, d: Id, e: Entry, gs: seq<GamePacket>) {
    AllIn(x, d) && x.sys.hub.down[d] != [] && ReadsAt(x, d, |x.sys.hub.down[d]| - 1, e.packet, e.from, gs)
  }

  lemma LastCanBeRead(v: World, e: Entry, d: Id, gs: seq<GamePacket>) returns (x: World)
    requires Reached(v) && IsLast(v.sys, d, e) && MadeOf(e.packet, e.from, gs) && Roomy(v.sys, d)
    requires d in v.downs && d !in v.rushed && Ends(v.downs[d])
    ensures ReadsLast(x, d, e, gs) && x.sys == v.sys
  {
    var n := CanComeIn(v, d);
    x := WithDown(v, d, n);
    LastIsRead(x, d, e, gs);
  }

  /** As long as both ends of its link are open, a relayed packet can come through, to be read or dropped as
      `EndToEndDelivery` says. */
  lemma RelayedCanBeRead(w: World, v: World, e: Entry, d: Id, gs: seq<GamePacket>) returns (x: World)
    requires Relays(w, v, e, d) && MadeOf(e.packet, e.from, gs)
    requires d in v.downs && Ends(v.downs[d]) && Roomy(v.sys, d)
    ensures ReadsLast(x, d, e, gs) && x.sys == v.sys
  {
    EveryOpenClientGetsIt(w, v, e, d);
    RelaysReach(w, v, e, d);
    x := LastCanBeRead(v, e, d, gs);
  }

  // ---------- and a posted one can be relayed ----------

  lemma CanFetch(s: Sys, c: Id)
    requires Reachable(s) && c in s.peers && c in s.hub.open && s.peers[c].validated
    requires s.peers[c].taken < |s.peers[c].up|
    ensures Enabled(s, Take(c, s.peers[c].up[s.peers[c].taken]))
  {
    ChannelsAgree(s, c);
    assert s.peers[c].up[s.peers[c].taken] in s.peers[c].up;
  }

  /** `t` is `s` after the server has fetched the packets of `c` up to the `n`-th, which is the last in its
      queue. */
  ghost predicate Fetched(s: Sys, t: Sys, c: Id, n: nat)
    requires c in s.peers && 0 < n <= |s.peers[c].up|
  {
    && t.hub == s.hub && t.next == s.next && t.done == s.done && t.peers.Keys == s.peers.Keys
    && |s.inLog| < |t.inLog| && t.inLog[|t.inLog| - 1] == Entry(c, s.peers[c].up[n - 1])
  }

  lemma FetchOne(s: Sys, c: Id) returns (st: Step, t: Sys)
    requires Reachable(s) && c in s.peers && c in s.hub.open && s.peers[c].validated
    requires s.peers[c].taken < |s.peers[c].up|
    ensures Enabled(s, st) && Whole(s, st) && t == Next(s, st) && Reachable(t)
    ensures Fetched(s, t, c, s.peers[c].taken + 1) && t.peers[c] == s.peers[c].(taken := s.peers[c].taken + 1)
  {
    st := Take(c, s.peers[c].up[s.peers[c].taken]);
    CanFetch(s, c);
    t := Next(s, st);
    ReachableNext(s, st);
  }

  lemma {:induction false} FetchedThen(s: Sys, st: Step, t: Sys, sts: seq<Step>, u: Sys, c: Id, n: nat)
    requires Enabled(s, st) && Whole(s, st) && t == Next(s, st) && Go(t, sts) == Some(u)
    requires c in s.peers && c in t.peers && t.peers[c].up == s.peers[c].up && 0 < n <= |s.peers[c].up|
    requires s.peers[c].taken < |s.peers[c].up| && Fetched(s, t, c, s.peers[c].taken + 1)
    requires if s.peers[c].taken + 1 == n then u == t else Fetched(t, u, c, n)
    ensures Go(s, [st] + sts) == Some(u) && Fetched(s, u, c, n)
  {
    GoFirst(s, st, sts);
  }

  /** What client `c` has posted can reach the server's queue. */
  lemma {:induction false} CanReachTheQueue(s: Sys, c: Id, n: nat) returns (sts: seq<Step>, u: Sys)
    requires Reachable(s) && c in s.peers && c in s.hub.open && s.peers[c].validated
    requires s.peers[c].taken < n <= |s.peers[c].up|
    ensures Go(s, sts) == Some(u) && Fetched(s, u, c, n)
    decreases n - s.peers[c].taken
  {
    var st, t := FetchOne(s, c);
    sts, u := [], t;
    if s.peers[c].taken + 1 < n {
      sts, u := CanReachTheQueue(t, c, n);
    }
    FetchedThen(s, st, t, sts, u, c, n);
    sts := [st] + sts;
  }

  /** No socket has been closed. */
  predicate AllOpen(s: Sys) {
    forall c :: c in s.peers ==> c in s.hub.open
  }

  lemma OpenIsDefined(h: Hub, c: Id, p: Packet)
    requires HubOk(h) && c in h.open && forall x :: x in h.clients ==> x in h.open
    ensures ReceiveDefined(h, c, p)
  {
    FlushEffect(h);
  }

  lemma CanProcess(s: Sys)
    requires Reachable(s) && AllOpen(s) && s.done < |s.inLog|
    ensures Enabled(s, Process)
  {
    BaseAt(s);
    OpenIsDefined(s.hub, s.inLog[s.done].from, s.inLog[s.done].packet);
  }

  /** `t` is `s` after the server has handled its queue up to entry `i`. */
  ghost predicate HandledTo(s: Sys, t: Sys, i: nat) {
    && t.inLog == s.inLog && t.done == i && t.next == s.next && t.peers.Keys == s.peers.Keys && AllOpen(t)
  }

  lemma ProcessedOne(s: Sys)
    requires Reachable(s) && AllOpen(s) && Enabled(s, Process)
    ensures HandledTo(s, Next(s, Process), s.done + 1)
  {
    ReachableInv(s);
    ProcessEffect(s);
  }

  /** The server can handle its queue up to any entry. */
  lemma {:induction false} CanBeHandled(s: Sys, i: nat) returns (sts: seq<Step>, u: Sys)
    requires Reachable(s) && AllOpen(s) && s.done <= i <= |s.inLog|
    ensures Go(s, sts) == Some(u) && HandledTo(s, u, i)
    decreases i - s.done
  {
    sts, u := [], s;
    if s.done < i {
      CanProcess(s);
      ProcessedOne(s);
      ReachableNext(s, Process);
      sts, u := CanBeHandled(Next(s, Process), i);
      GoFirst(s, Process, sts);
      sts := [Process] + sts;
    }
  }

  /** Entry `e` is the next one that the server handles. */
  ghost predicate IsNext(s: Sys, e: Entry) {
    s.done < |s.inLog| && s.inLog[s.done] == e
  }

  lemma FetchedIsOpen(s: Sys, t: Sys, c: Id, n: nat)
    requires c in s.peers && 0 < n <= |s.peers[c].up| && Fetched(s, t, c, n) && AllOpen(s)
    ensures AllOpen(t)
  {
  }

  lemma HandledIsNext(s: Sys, u: Sys, e: Entry)
    requires s.inLog != [] && s.inLog[|s.inLog| - 1] == e && HandledTo(s, u, |s.inLog| - 1)
    ensures AllOpen(u) && u.next == s.next && u.peers.Keys == s.peers.Keys && IsNext(u, e)
  {
  }

  lemma LastBecomesNext(s: Sys, e: Entry) returns (sts: seq<Step>, u: Sys)
    requires Reachable(s) && AllOpen(s) && s.done < |s.inLog| && s.inLog[|s.inLog| - 1] == e
    ensures Go(s, sts) == Some(u) && AllOpen(u) && u.next == s.next && u.peers.Keys == s.peers.Keys && IsNext(u, e)
  {
    sts, u := CanBeHandled(s, |s.inLog| - 1);
    HandledIsNext(s, u, e);
  }

  lemma StepsToNext(s: Sys, c: Id, n: nat) returns (fetch: seq<Step>, queued: Sys, handle: seq<Step>, u: Sys)
    requires Reachable(s) && s.done <= |s.inLog| && AllOpen(s)
    requires c in s.peers && s.peers[c].validated && s.peers[c].taken < n <= |s.peers[c].up|
    ensures Go(s, fetch) == Some(queued) && Go(queued, handle) == Some(u)
    ensures AllOpen(u) && u.next == s.next && u.peers.Keys == s.peers.Keys
    ensures IsNext(u, Entry(c, s.peers[c].up[n - 1]))
  {
    fetch, queued := CanReachTheQueue(s, c, n);
    GoReaches(s, fetch);
    FetchedIsOpen(s, queued, c, n);
    handle, u := LastBecomesNext(queued, Entry(c, s.peers[c].up[n - 1]));
  }

  lemma CanBeNext(w: World, c: Id, n: nat) returns (v: World)
    requires Smooth(w) && Reachable(w.sys) && w.sys.done <= |w.sys.inLog| && AllOpen(w.sys)
    requires c in w.sys.peers && w.sys.peers[c].validated && w.sys.peers[c].taken < n <= |w.sys.peers[c].up|
    ensures Smooth(v) && AllOpen(v.sys) && v.sys.next == w.sys.next && v.sys.peers.Keys == w.sys.peers.Keys
    ensures IsNext(v.sys, Entry(c, w.sys.peers[c].up[n - 1]))
  {
    var fetch, queued, handle, u := StepsToNext(w.sys, c, n);
    v := StepsAreRealised(w, fetch);
    v := StepsAreRealised(v, handle);
  }

  lemma ProcessIsMove(w: World)
    requires Enabled(w.sys, Process)
    ensures Moves(w, Local(Process), After(w, Next(w.sys, Process)))
  {
  }

  lemma CanRelay(w: World, e: Entry, d: Id)
    requires Smooth(w) && Enabled(w.sys, Process) && IsNext(w.sys, e)
    requires IsGame(e.packet.id) && d in w.sys.hub.open && d != e.from
    ensures Relays(w, After(w, Next(w.sys, Process)), e, d)
  {
    ProcessIsMove(w);
  }

  lemma EndsStay(w: World, t: Sys, d: Id)
    requires d in w.downs && d in t.hub.down && Ends(w.downs[d])
    ensures d in After(w, t).downs && Ends(After(w, t).downs[d])
  {
    OntoIsOpen(w.downs[d], t.hub.down[d]);
  }

  lemma DownIsKnown(w: World, d: Id)
    requires Reached(w) && d in w.sys.peers
    ensures Reachable(w.sys) && d in w.downs && w.sys.done <= |w.sys.inLog|
  {
    LinksAt(w, d);
    BaseAt(w.sys);
  }

  lemma NextCanBeRead(w: World, e: Entry, d: Id, gs: seq<GamePacket>) returns (x: World)
    requires Smooth(w) && AllOpen(w.sys) && 2 * (w.sys.next - FIRST_ID) < WORD_BOUND
    requires IsNext(w.sys, e) && d in w.sys.peers && d != e.from && MadeOf(e.packet, e.from, gs)
    ensures ReadsLast(x, d, e, gs)
  {
    DownIsKnown(w, d);
    CanProcess(w.sys);
    ProcessedOne(w.sys);
    CanRelay(w, e, d);
    var v := After(w, Next(w.sys, Process));
    EveryOpenClientGetsIt(w, v, e, d);
    EndsStay(w, v.sys, d);
    x := RelayedCanBeRead(w, v, e, d, gs);
  }

  /** From end to end: while no socket is closed and no challenge has been overtaken, whatever client `c` has
      posted and the server has not fetched can reach any other connected client `d`, which reads in it what
      it was made of, or drops it if it does not know `c` by then. */
  lemma PostedCanBeRead(w: World, c: Id, j: nat, d: Id, gs: seq<GamePacket>) returns (x: World)
    requires Smooth(w) && AllOpen(w.sys) && 2 * (w.sys.next - FIRST_ID) < WORD_BOUND
    requires c in w.sys.peers && w.sys.peers[c].validated && w.sys.peers[c].taken <= j < |w.sys.peers[c].up|
    requires d in w.sys.peers && d != c && MadeOf(w.sys.peers[c].up[j], c, gs)
    ensures ReadsLast(x, d, Entry(c, w.sys.peers[c].up[j]), gs)
  {
    DownIsKnown(w, d);
    var v := CanBeNext(w, c, j + 1);
    x := NextCanBeRead(v, Entry(c, w.sys.peers[c].up[j]), d, gs);
  }

  /** It comes to that: a system in which the server is about to relay. */
  lemma RelaysHappens() returns (w: World, v: World, e: Entry, d: Id)
    ensures Relays(w, v, e, d)
  {
    var s := RelayRuns.AboutToRelay();
    w := RunsAreRealised(s);
    v, e, d := After(w, Next(s, Process)), s.inLog[s.done], RelayRuns.B;
    CanRelay(w, e, d);
  }
}
