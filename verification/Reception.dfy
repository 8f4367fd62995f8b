/** From the socket to the game: which events of another client the processing thread of a client is handed. */
module Reception {
  import opened Words
  import opened Lists
  import opened Packets
  import opened Hubs
  import opened GameMessages
  import opened ClientViews
  import opened ClientConnections
  import opened ClientStates
  import opened Relay
  import opened RelayTraffic
  import opened RelayOrder
  import opened RelayTheorems
  import opened RelayAnnouncements
  import opened RelayKnowledge
  import opened EndToEnd
  import opened Systems
  import B = ClientBuffers

  // ---------- the two threads of one client ----------

  /** A new client after these steps of its two threads; None where one of them cannot be made. */
  ghost function Threads(es: seq<B.Event>): Option<B.Buffers> {
    if es == [] then Some(B.Buffers(0, true, false, [], [], B.Resting, B.Round([], []), [], []))
    else
      match Threads(es[..|es| - 1])
      case None => None
      case Some(b) => if B.Enabled(b, es[|es| - 1]) then Some(B.Next(b, es[|es| - 1])) else None
  }

  /** The packets that the reading thread has handled by then. */
  function HandledIn(es: seq<B.Event>): seq<Packet> {
    if es == [] then []
    else HandledIn(es[..|es| - 1]) + if es[|es| - 1].Deliver? then [es[|es| - 1].p] else []
  }

  lemma {:induction false} ThreadsReach(es: seq<B.Event>)
    requires Threads(es).Some?
    ensures B.Reachable(Threads(es).value)
  {
    if es == [] {
      var b := B.Start();
    } else {
      ThreadsReach(es[..|es| - 1]);
      B.ReachableNext(Threads(es[..|es| - 1]).value, es[|es| - 1]);
    }
  }

  lemma {:induction false} ThreadsSnoc(es: seq<B.Event>, e: B.Event)
    requires Threads(es).Some? && B.Enabled(Threads(es).value, e)
    ensures Threads(es + [e]) == Some(B.Next(Threads(es).value, e))
  {
    assert (es + [e])[..|es|] == es;
  }

  lemma {:induction false} RunIsThreads(run: seq<B.Buffers>) returns (es: seq<B.Event>)
    requires B.IsRun(run)
    ensures Threads(es) == Some(run[|run| - 1])
  {
    es := [];
    var last := |run| - 1;
    if last > 0 {
      es := RunIsThreads(run[..last]);
      var e :| B.Enabled(run[last - 1], e) && run[last] == B.Next(run[last - 1], e);
      ThreadsSnoc(es, e);
      es := es + [e];
    }
  }

  /** These are all the interleavings there are. */
  lemma ThreadsAreRuns(b: B.Buffers)
    ensures B.Reachable(b) <==> exists es :: Threads(es) == Some(b)
  {
    if B.Reachable(b) {
      var run :| B.IsRun(run) && run[|run| - 1] == b;
      var es := RunIsThreads(run);
    }
    if es :| Threads(es) == Some(b) {
      ThreadsReach(es);
    }
  }

  // ---------- which events are kept ----------

  /** An event of a sender that the client knows. */
  predicate IsKept(v: View, p: Packet) {
    p.id == GAME_EVENT_CLIENT && Subject(p) in v.roster
  }

  /** The events among `ps` whose sender is known when they are handled. */
  function Kept(ps: seq<Packet>): seq<Packet> {
    if ps == [] then []
    else
      Kept(ps[..|ps| - 1])
      + if IsKept(HandleAll(NEWBORN, ps[..|ps| - 1]), ps[|ps| - 1]) then [ps[|ps| - 1]] else []
  }

  /** The words that `p` was packed from, and the index of a player. */
  ghost predicate IsWordsOf(event: seq<Word>, p: Packet) {
    event != [] && Fits(event[..|event| - 1]) && p == Pack(p.id, event[..|event| - 1], Subject(p))
  }

  ghost predicate AreWordsOf(events: seq<seq<Word>>, ps: seq<Packet>) {
    |events| == |ps| && forall j :: 0 <= j < |ps| ==> IsWordsOf(events[j], ps[j])
  }

  lemma WordsThenIndex(words: seq<Word>, index: Word, p: Packet)
    requires Fits(words) && p == Pack(p.id, words, Subject(p))
    ensures IsWordsOf(words + [index], p)
  {
    assert (words + [index])[..|words|] == words;
  }

  lemma KnownIsKept(ps: seq<PeerEntry>, p: Packet)
    requires IsGame(p.id) && SentBy(Subject(p), p) && Indexable(ps) && Poppable(ps, p)
    ensures Subject(p) in Ids(ps) ==> Retrieved(ps, p) != [] && IsWordsOf(Retrieved(ps, p), p)
    ensures Subject(p) !in Ids(ps) ==> Retrieved(ps, p) == []
  {
    var words :| Fits(words) && words != [] && p == Pack(p.id, words, Subject(p));
    IndexOfIsFirst(ps, Subject(p));
    var index: Word := IndexOf(ps, Subject(p));
    RetrieveInvertsPack(p.id, words, Subject(p), index);
    WordsThenIndex(words, index, p);
  }

  lemma EventIsKept(ps: seq<PeerEntry>, p: Packet)
    requires IsGame(p.id) && SentBy(Subject(p), p) && Indexable(ps) && Poppable(ps, p)
    ensures AreWordsOf(if Retrieved(ps, p) == [] then [] else [Retrieved(ps, p)],
                       if Subject(p) in Ids(ps) then [p] else [])
  {
    KnownIsKept(ps, p);
  }

  /** What one delivered packet adds to the queue. */
  lemma QueuesWhatIsKept(b: B.Buffers, p: Packet, got: Packet)
    requires OnChannel(p) && ReceivedAs(p, got) && B.Enabled(b, B.Deliver(got))
    ensures AreWordsOf(B.NewEvents(b, got), if IsKept(ViewOf(B.Core(b)), p) then [p] else [])
  {
    if p.id == GAME_EVENT_CLIENT {
      SentByShape(Subject(p), p);
      EventIsKept(B.EntriesOf(b.slots), p);
    }
  }

  lemma MoreWords(events: seq<seq<Word>>, ps: seq<Packet>, more: seq<seq<Word>>, qs: seq<Packet>)
    requires AreWordsOf(events, ps) && AreWordsOf(more, qs)
    ensures AreWordsOf(events + more, ps + qs)
  {
  }

  lemma ViewAfterDelivery(b: B.Buffers, p: Packet, got: Packet)
    requires OnChannel(p) && ReceivedAs(p, got) && B.Enabled(b, B.Deliver(got))
    ensures ViewOf(B.Core(B.Next(b, B.Deliver(got)))) == Handle(ViewOf(B.Core(b)), p)
  {
    B.DeliverIsHandlePacket(b, got);
    HandleStateRefinesView(B.Core(b), got);
    ReceivedIsPoppable(p, got, B.EntriesOf(b.slots), ViewOf(B.Core(b)));
  }

  /** The buffers hold what a client makes of `sent`. */
  ghost predicate Holds(b: B.Buffers, sent: seq<Packet>) {
    ViewOf(B.Core(b)) == HandleAll(NEWBORN, sent) && AreWordsOf(b.pushedEvents, Kept(sent))
  }

  lemma DeliverHolds(b: B.Buffers, sent: seq<Packet>, p: Packet, got: Packet)
    requires Holds(b, sent) && OnChannel(p) && ReceivedAs(p, got) && B.Enabled(b, B.Deliver(got))
    ensures Holds(B.Next(b, B.Deliver(got)), sent + [p])
  {
    HandleOne(NEWBORN, sent, p);
    ViewAfterDelivery(b, p, got);
    QueuesWhatIsKept(b, p, got);
    B.DeliverLeaves(b, got);
    MoreWords(b.pushedEvents, Kept(sent), B.NewEvents(b, got), if IsKept(ViewOf(B.Core(b)), p) then [p] else []);
    assert (sent + [p])[..|sent|] == sent;
  }

  lemma WalkingHolds(b: B.Buffers, sent: seq<Packet>, e: B.Event)
    requires Holds(b, sent) && B.Enabled(b, e) && !e.Deliver?
    ensures Holds(B.Next(b, e), sent)
  {
    assert ViewOf(B.Core(B.Next(b, e))) == ViewOf(B.Core(b));
  }

  /** The link has handed up `got` of what it was given. */
  ghost predicate Received(sent: seq<Packet>, got: seq<Packet>) {
    |got| <= |sent| && forall i :: 0 <= i < |got| ==> OnChannel(sent[i]) && ReceivedAs(sent[i], got[i])
  }

  lemma NextHandled(handled: seq<Packet>, p: Packet, got: seq<Packet>)
    requires handled + [p] <= got
    ensures |handled| < |got| && got[|handled|] == p && handled <= got
  {
    assert (handled + [p])[|handled|] == p;
  }

  lemma DeliveryHolds(b: B.Buffers, sent: seq<Packet>, got: seq<Packet>, n: nat)
    requires Received(sent, got) && n < |got| && Holds(b, sent[..n]) && B.Enabled(b, B.Deliver(got[n]))
    ensures Holds(B.Next(b, B.Deliver(got[n])), sent[..n + 1])
  {
    DeliverHolds(b, sent[..n], sent[n], got[n]);
    TakeOneMore(sent, n);
  }

  /** Whatever the interleaving, the client believes what the packets make it believe, and the events it has
      queued are those of the senders it knew, in order. */
  lemma {:induction false} ThreadsHold(es: seq<B.Event>, sent: seq<Packet>, got: seq<Packet>)
    requires Threads(es).Some? && HandledIn(es) <= got && Received(sent, got)
    ensures Holds(Threads(es).value, sent[..|HandledIn(es)|])
  {
    if es != [] {
      var front, e := es[..|es| - 1], es[|es| - 1];
      ThreadsHold(front, sent, got);
      if e.Deliver? {
        NextHandled(HandledIn(front), e.p, got);
        DeliveryHolds(Threads(front).value, sent, got, |HandledIn(front)|);
      } else {
        WalkingHolds(Threads(front).value, sent[..|HandledIn(front)|], e);
      }
    }
  }

  // ---------- which of one sender's ----------

  /** The events that `c` has sent among `ps`. */
  function EventsFrom(ps: seq<Packet>, c: Id): seq<Packet> {
    if ps == [] then []
    else
      EventsFrom(ps[..|ps| - 1], c)
      + if ps[|ps| - 1].id == GAME_EVENT_CLIENT && Subject(ps[|ps| - 1]) == c then [ps[|ps| - 1]] else []
  }

  lemma {:induction false} EventsFromAppend(ps: seq<Packet>, qs: seq<Packet>, c: Id)
    ensures EventsFrom(ps + qs, c) == EventsFrom(ps, c) + EventsFrom(qs, c)
  {
    if qs == [] {
      assert ps + qs == ps;
    } else {
      assert (ps + qs)[..|ps + qs| - 1] == ps + qs[..|qs| - 1];
      EventsFromAppend(ps, qs[..|qs| - 1], c);
    }
  }

  lemma {:induction false} EventsFromSnoc(ps: seq<Packet>, p: Packet, c: Id)
    ensures EventsFrom(ps + [p], c)
            == EventsFrom(ps, c) + if p.id == GAME_EVENT_CLIENT && Subject(p) == c then [p] else []
  {
    assert (ps + [p])[..|ps|] == ps;
  }

  lemma {:induction false} EventsOfGames(ps: seq<Packet>, c: Id)
    ensures EventsFrom(GamesOf(ps, c), c) == EventsFrom(ps, c)
  {
    if ps != [] {
      var front, p := ps[..|ps| - 1], ps[|ps| - 1];
      EventsOfGames(front, c);
      if IsGame(p.id) && Subject(p) == c {
        EventsFromSnoc(GamesOf(front, c), p, c);
      } else {
        assert GamesOf(ps, c) == GamesOf(front, c);
      }
    }
  }

  /** `mid` is a contiguous stretch of `all`. */
  ghost predicate Within(mid: seq<Packet>, all: seq<Packet>) {
    exists before: seq<Packet> :: before + mid <= all
  }

  lemma {:induction false} EventsStayInOrder(missed: seq<Packet>, got: seq<Packet>, all: seq<Packet>, c: Id)
    requires missed + got <= all
    ensures EventsFrom(missed, c) + EventsFrom(got, c) <= EventsFrom(all, c)
  {
    assert all == missed + got + all[|missed + got|..];
    EventsFromAppend(missed + got, all[|missed + got|..], c);
    EventsFromAppend(missed, got, c);
  }

  /** Of what `c` has sent a channel carries a contiguous stretch of the events. */
  lemma ChannelHasAStretch(s: Sys, d: Id, c: Id) returns (missed: seq<Packet>)
    requires Reachable(s) && d in s.peers && c in s.peers && d != c
    ensures d in s.hub.down && missed + EventsFrom(s.hub.down[d], c) <= EventsFrom(s.peers[c].up, c)
  {
    RelayIsExact(s, d, c);
    var games := InGames(s.inLog[..s.peers[d].born], c);
    EventsStayInOrder(games, GamesOf(s.hub.down[d], c), GamesOf(s.peers[c].up, c), c);
    EventsOfGames(s.hub.down[d], c);
    EventsOfGames(s.peers[c].up, c);
    missed := EventsFrom(games, c);
  }

  // ---------- a sender is known for one stretch of the channel ----------

  /** The client knows `c` when it comes to the packet at position `k`. */
  predicate KnowsAt(ps: seq<Packet>, k: nat, c: Id)
    requires k <= |ps|
  {
    c in HandleAll(NEWBORN, ps[..k]).roster
  }

  /** `d` can be sent these, and `c` does not come back among them. */
  ghost predicate Proper(d: Id, c: Id, ps: seq<Packet>) {
    && FIRST_ID <= d && FIRST_ID <= c && c != d && NoReturn(ps, c)
    && forall p :: p in ps ==> DownWire(d, p)
  }

  lemma {:induction false} ProperPrefix(d: Id, c: Id, ps: seq<Packet>, n: nat)
    requires Proper(d, c, ps) && n <= |ps|
    ensures Proper(d, c, ps[..n])
  {
    if n == |ps| {
      assert ps[..n] == ps;
    } else {
      ProperPrefix(d, c, ps[..|ps| - 1], n);
      assert ps[..|ps| - 1][..n] == ps[..n];
    }
  }

  lemma KnownByPrefix(d: Id, c: Id, ps: seq<Packet>, k: nat)
    requires Proper(d, c, ps) && k <= |ps|
    ensures KnowsAt(ps, k, c) <==> Removes(ps[..k], c) < Adds(ps[..k], c)
  {
    ProperPrefix(d, c, ps, k);
    RosterCount(d, ps[..k], c);
    InRoster(HandleAll(NEWBORN, ps[..k]).roster, c);
  }

  /** Both counts only grow, and the announcements only up to a removal. */
  ghost predicate Grows(ps: seq<Packet>, qs: seq<Packet>, c: Id) {
    && Adds(ps, c) <= Adds(qs, c) && Removes(ps, c) <= Removes(qs, c)
    && (Removes(ps, c) > 0 ==> Adds(ps, c) == Adds(qs, c))
  }

  lemma {:induction false} OneMoreGrows(ps: seq<Packet>, front: seq<Packet>, p: Packet, c: Id)
    requires Grows(ps, front, c) && NoReturn(front + [p], c)
    ensures Grows(ps, front + [p], c)
  {
    assert (front + [p])[..|front|] == front;
    GrowsByOne(front, p, c);
  }

  lemma {:induction false} CountsGrow(ps: seq<Packet>, i: nat, c: Id)
    requires NoReturn(ps, c) && i <= |ps|
    ensures Grows(ps[..i], ps, c)
    decreases |ps|
  {
    if i == |ps| {
      assert ps[..i] == ps;
    } else {
      var front, p := ps[..|ps| - 1], ps[|ps| - 1];
      assert front[..i] == ps[..i] && ps == front + [p];
      CountsGrow(front, i, c);
      OneMoreGrows(ps[..i], front, p, c);
    }
  }

  lemma GrowsByOne(front: seq<Packet>, p: Packet, c: Id)
    ensures Adds(front + [p], c) == Adds(front, c) + One(p == IdPacket(GAME_ADD_CLIENT, c))
    ensures Removes(front + [p], c) == Removes(front, c) + One(p == IdPacket(GAME_REMOVE_CLIENT, c))
  {
    AddsAppend(front, [p], c);
    RemovesAppend(front, [p], c);
    OnePacket(p, c);
  }

  lemma PrefixGrows(d: Id, c: Id, ps: seq<Packet>, i: nat, j: nat)
    requires Proper(d, c, ps) && i <= j <= |ps|
    ensures Grows(ps[..i], ps[..j], c)
  {
    ProperPrefix(d, c, ps, j);
    CountsGrow(ps[..j], i, c);
    assert ps[..j][..i] == ps[..i];
  }

  /** Whom a client knows early and late it has known all the time in between. */
  lemma KnownBetween(d: Id, c: Id, ps: seq<Packet>, i: nat, j: nat, k: nat)
    requires Proper(d, c, ps) && i <= j <= k <= |ps| && KnowsAt(ps, i, c) && KnowsAt(ps, k, c)
    ensures KnowsAt(ps, j, c)
  {
    KnownByPrefix(d, c, ps, i);
    KnownByPrefix(d, c, ps, j);
    KnownByPrefix(d, c, ps, k);
    PrefixGrows(d, c, ps, i, j);
    PrefixGrows(d, c, ps, j, k);
  }

  /** `d` handles the packets from `lo` up to `hi`, and no others, while it knows `c`. */
  ghost predicate Span(ps: seq<Packet>, c: Id, lo: nat, hi: nat) {
    lo <= hi <= |ps| && forall k :: 0 <= k < |ps| ==> (KnowsAt(ps, k, c) <==> lo <= k < hi)
  }

  lemma SpanOfPrefix(ps: seq<Packet>, n: nat, c: Id, lo: nat, hi: nat)
    requires n < |ps| && Span(ps[..n], c, lo, hi)
    ensures forall k :: 0 <= k < n ==> (KnowsAt(ps, k, c) <==> lo <= k < hi)
  {
    forall k | 0 <= k < n
      ensures KnowsAt(ps, k, c) <==> lo <= k < hi
    {
      assert ps[..n][..k] == ps[..k];
      assert KnowsAt(ps[..n], k, c) <==> lo <= k < hi;
    }
  }

  lemma {:induction false} HasSpan(d: Id, c: Id, ps: seq<Packet>) returns (lo: nat, hi: nat)
    requires Proper(d, c, ps)
    ensures Span(ps, c, lo, hi)
  {
    lo, hi := 0, 0;
    if ps != [] {
      var n := |ps| - 1;
      ProperPrefix(d, c, ps, n);
      lo, hi := HasSpan(d, c, ps[..n]);
      SpanOfPrefix(ps, n, c, lo, hi);
      if KnowsAt(ps, n, c) {
        if lo == hi {
          lo, hi := n, n + 1;
        } else {
          if hi < n {
            KnownBetween(d, c, ps, lo, hi, n);
          }
          hi := n + 1;
        }
      }
    }
  }

  lemma SpanFront(ps: seq<Packet>, c: Id, lo: nat, hi: nat, low: nat, top: nat)
    requires ps != [] && Span(ps, c, lo, hi)
    requires low == (if lo == |ps| then |ps| - 1 else lo) && top == if hi == |ps| then |ps| - 1 else hi
    ensures Span(ps[..|ps| - 1], c, low, top)
  {
    var front := ps[..|ps| - 1];
    forall k | 0 <= k < |front|
      ensures KnowsAt(front, k, c) <==> low <= k < top
    {
      assert front[..k] == ps[..k];
      assert KnowsAt(ps, k, c) <==> lo <= k < hi;
    }
  }

  lemma {:induction false} KeptOne(front: seq<Packet>, v: View, p: Packet)
    requires v == HandleAll(NEWBORN, front)
    ensures Kept(front + [p]) == Kept(front) + if IsKept(v, p) then [p] else []
  {
    assert (front + [p])[..|front|] == front;
  }

  lemma KeptSnoc(kept: seq<Packet>, v: View, p: Packet, c: Id)
    ensures EventsFrom(kept + if IsKept(v, p) then [p] else [], c)
            == EventsFrom(kept, c) + EventsFrom(if c in v.roster then [p] else [], c)
  {
    EventsFromAppend(kept, if IsKept(v, p) then [p] else [], c);
    EventsFromSnoc([], p, c);
    assert [] + [p] == [p];
  }

  lemma SliceSnoc(front: seq<Packet>, p: Packet, lo: nat, hi: nat, low: nat, top: nat)
    requires lo <= hi <= |front| + 1
    requires low == (if lo == |front| + 1 then |front| else lo) && top == if hi == |front| + 1 then |front| else hi
    ensures (front + [p])[lo..hi] == front[low..top] + if lo <= |front| < hi then [p] else []
  {
  }

  lemma {:induction false} KeptInSpan(ps: seq<Packet>, c: Id, lo: nat, hi: nat)
    requires Span(ps, c, lo, hi)
    ensures EventsFrom(Kept(ps), c) == EventsFrom(ps[lo..hi], c)
    decreases |ps|
  {
    if ps == [] {
      assert ps[lo..hi] == [];
    } else {
      var front, p := ps[..|ps| - 1], ps[|ps| - 1];
      var low := if lo == |ps| then |ps| - 1 else lo;
      var top := if hi == |ps| then |ps| - 1 else hi;
      SpanFront(ps, c, lo, hi, low, top);
      KeptInSpan(front, c, low, top);
      OneMoreInSpan(ps, c, lo, hi, front, p, low, top);
    }
  }

  lemma {:induction false} OneMoreInSpan(ps: seq<Packet>, c: Id, lo: nat, hi: nat, front: seq<Packet>, p: Packet,
                                         low: nat, top: nat)
    requires ps == front + [p] && Span(ps, c, lo, hi) && low <= top <= |front|
    requires low == (if lo == |ps| then |front| else lo) && top == if hi == |ps| then |front| else hi
    requires EventsFrom(Kept(front), c) == EventsFrom(front[low..top], c)
    ensures EventsFrom(Kept(ps), c) == EventsFrom(ps[lo..hi], c)
  {
    var v := HandleAll(NEWBORN, front);
    assert ps[..|front|] == front;
    assert KnowsAt(ps, |front|, c) <==> lo <= |front| < hi;
    KeptOne(front, v, p);
    KeptSnoc(Kept(front), v, p, c);
    SliceSnoc(front, p, lo, hi, low, top);
    EventsFromAppend(front[low..top], if lo <= |front| < hi then [p] else [], c);
  }

  // ---------- in the system ----------

  lemma ChannelIsProper(s: Sys, d: Id, c: Id, n: nat)
    requires Reachable(s) && d in s.peers && c in s.peers && c != d && d in s.hub.down && n <= |s.hub.down[d]|
    ensures Proper(d, c, s.hub.down[d][..n])
  {
    TrafficAt(s, d);
    BaseAt(s);
    CurrentAt(s, d, c);
    ProperPrefix(d, c, s.hub.down[d], n);
  }

  lemma ChannelAsReceived(w: World, d: Id, k: nat)
    requires Reached(w) && d in w.downs && d !in w.rushed && k < |w.downs[d].rcv.got|
    ensures d in w.sys.hub.down && k < |w.sys.hub.down[d]|
    ensures OnChannel(w.sys.hub.down[d][k]) && ReceivedAs(w.sys.hub.down[d][k], w.downs[d].rcv.got[k])
  {
    DownAt(w, d);
    LinkIsFaithful(w.downs[d], w.sys.hub.down[d], w.sys.peers[d].seen, k);
    ChannelPackets(w.sys, d, w.sys.hub.down[d][k]);
  }

  lemma DownIsKnown(w: World, d: Id)
    requires Reached(w) && d in w.downs && d !in w.rushed
    ensures d in w.sys.peers && d in w.sys.hub.down && Reachable(w.sys)
  {
    DownAt(w, d);
  }

  lemma ChannelIsReceived(w: World, d: Id)
    requires Reached(w) && d in w.downs && d !in w.rushed
    ensures d in w.sys.peers && d in w.sys.hub.down && Reachable(w.sys)
    ensures Received(w.sys.hub.down[d], w.downs[d].rcv.got)
  {
    DownIsKnown(w, d);
    var sent, got := w.sys.hub.down[d], w.downs[d].rcv.got;
    forall k | 0 <= k < |got|
      ensures k < |sent| && OnChannel(sent[k]) && ReceivedAs(sent[k], got[k])
    {
      ChannelAsReceived(w, d, k);
    }
    if got != [] {
      ChannelAsReceived(w, d, |got| - 1);
    }
  }

  lemma SpoiledFits(s: Sys, d: Id, n: nat)
    requires Reachable(s) && d in s.peers && d in s.hub.down && n <= |s.hub.down[d]|
    requires 2 * (s.next - FIRST_ID) < WORD_BOUND
    ensures |HandleAll(NEWBORN, s.hub.down[d][..n]).roster| < NOT_FOUND
  {
    RosterIsBounded(s, d, n);
    TwiceIsEven(s.next - FIRST_ID);
  }

  lemma TwiceIsEven(x: int)
    requires 2 * x < WORD_BOUND
    ensures 2 * x < NOT_FOUND
  {
  }

  lemma UnspoiledFits(s: Sys, d: Id, n: nat)
    requires Reachable(s) && d in s.peers && d in s.hub.down && n <= |s.hub.down[d]| && !s.peers[d].spoiled
    ensures |HandleAll(NEWBORN, s.hub.down[d][..n]).roster| < NOT_FOUND
  {
    RosterIsShort(s, d, n);
  }

  lemma RosterFits(s: Sys, d: Id, n: nat)
    requires Reachable(s) && d in s.peers && Roomy(s, d) && d in s.hub.down && n <= |s.hub.down[d]|
    ensures |HandleAll(NEWBORN, s.hub.down[d][..n]).roster| < NOT_FOUND
  {
    if s.peers[d].spoiled {
      SpoiledFits(s, d, n);
    } else {
      UnspoiledFits(s, d, n);
    }
  }

  lemma {:induction false} CanDeliver(b: B.Buffers, sent: seq<Packet>, p: Packet, got: Packet)
    requires Holds(b, sent) && OnChannel(p) && ReceivedAs(p, got) && b.phase == B.Resting
    requires |HandleAll(NEWBORN, sent).roster| < NOT_FOUND
    ensures B.Enabled(b, B.Deliver(got)) && B.Next(b, B.Deliver(got)).phase == B.Resting
  {
    ReceivedIsPoppable(p, got, B.EntriesOf(b.slots), NEWBORN);
    B.DeliverLeaves(b, got);
  }

  lemma {:induction false} HandledSnoc(es: seq<B.Event>, p: Packet)
    ensures HandledIn(es + [B.Deliver(p)]) == HandledIn(es) + [p]
  {
    assert (es + [B.Deliver(p)])[..|es|] == es;
  }

  lemma {:induction false} CanDeliverAll(sent: seq<Packet>, got: seq<Packet>, n: nat) returns (es: seq<B.Event>)
    requires Received(sent, got) && n <= |got|
    requires forall k :: 0 <= k < n ==> |HandleAll(NEWBORN, sent[..k]).roster| < NOT_FOUND
    ensures Threads(es).Some? && Threads(es).value.phase == B.Resting && HandledIn(es) == got[..n]
  {
    es := [];
    if n > 0 {
      es := CanDeliverAll(sent, got, n - 1);
      ThreadsHold(es, sent, got);
      CanDeliver(Threads(es).value, sent[..n - 1], sent[n - 1], got[n - 1]);
      ThreadsSnoc(es, B.Deliver(got[n - 1]));
      HandledSnoc(es, got[n - 1]);
      TakeOneMore(got, n - 1);
      es := es + [B.Deliver(got[n - 1])];
    }
  }

  /** And all that the link has handed up can be handled. */
  lemma AllCanBeHandled(w: World, d: Id) returns (es: seq<B.Event>)
    requires Reached(w) && d in w.downs && d !in w.rushed && d in w.sys.peers && Roomy(w.sys, d)
    ensures Threads(es).Some? && HandledIn(es) == w.downs[d].rcv.got
  {
    ChannelIsReceived(w, d);
    var sent, got := w.sys.hub.down[d], w.downs[d].rcv.got;
    forall k | 0 <= k < |got|
      ensures |HandleAll(NEWBORN, sent[..k]).roster| < NOT_FOUND
    {
      RosterFits(w.sys, d, k);
    }
    es := CanDeliverAll(sent, got, |got|);
    assert got[..|got|] == got;
  }

  lemma {:induction false} EventsOfStretch(down: seq<Packet>, lo: nat, hi: nat, c: Id)
    requires lo <= hi <= |down|
    ensures EventsFrom(down[..lo], c) + EventsFrom(down[lo..hi], c) <= EventsFrom(down, c)
  {
    assert down[..lo] + down[lo..hi] == down[..hi] <= down;
    EventsStayInOrder(down[..lo], down[lo..hi], down, c);
  }

  lemma PrefixAfter(missed: seq<Packet>, before: seq<Packet>, mid: seq<Packet>, got: seq<Packet>, all: seq<Packet>)
    requires missed + got <= all && before + mid <= got
    ensures Within(mid, all)
  {
    assert missed + before + mid <= missed + got;
  }

  lemma {:induction false} StretchOfStretch(missed: seq<Packet>, down: seq<Packet>, n: nat, lo: nat, hi: nat,
                                            all: seq<Packet>, c: Id)
    requires missed + EventsFrom(down, c) <= all && lo <= hi <= n <= |down|
    ensures Within(EventsFrom(down[..n][lo..hi], c), all)
  {
    EventsOfStretch(down, lo, hi, c);
    PrefixAfter(missed, EventsFrom(down[..lo], c), EventsFrom(down[lo..hi], c), EventsFrom(down, c), all);
    assert down[..n][lo..hi] == down[lo..hi];
  }

  /** From one game to another. However the two threads of client `d` take turns, and whatever has been
      handled of what its link has handed up: what the processing thread has been handed, followed by what
      is queued for it, are the events that were kept, each once and in order. Those of another client `c`
      are the ones relayed while `d` knew it, which is for one stretch `lo..hi` of its channel, and so they
      are a contiguous stretch of the events that `c` sent. */
  lemma EventsReachTheGame(w: World, d: Id, c: Id, es: seq<B.Event>) returns (lo: nat, hi: nat)
    requires Reached(w) && d in w.downs && d !in w.rushed && c in w.ups && c != d
    requires Threads(es).Some? && HandledIn(es) <= w.downs[d].rcv.got
    ensures d in w.sys.hub.down && |HandledIn(es)| <= |w.sys.hub.down[d]|
    ensures var b, handled := Threads(es).value, w.sys.hub.down[d][..|HandledIn(es)|];
            && AreWordsOf(B.EventsOf(b.rounds) + b.round.events + b.events, Kept(handled))
            && Span(handled, c, lo, hi)
            && EventsFrom(Kept(handled), c) == EventsFrom(handled[lo..hi], c)
            && Within(EventsFrom(Kept(handled), c), EventsFrom(w.ups[c].snd.sends, c))
  {
    ChannelIsReceived(w, d);
    ThreadsHold(es, w.sys.hub.down[d], w.downs[d].rcv.got);
    ThreadsReach(es);
    B.EventsAreConserved(Threads(es).value);
    UpAt(w, c);
    var n := |HandledIn(es)|;
    var handled := w.sys.hub.down[d][..n];
    ChannelIsProper(w.sys, d, c, n);
    lo, hi := HasSpan(d, c, handled);
    KeptInSpan(handled, c, lo, hi);
    var missed := ChannelHasAStretch(w.sys, d, c);
    StretchOfStretch(missed, w.sys.hub.down[d], n, lo, hi, EventsFrom(w.ups[c].snd.sends, c), c);
  }
}
