/** Who has been introduced to whom, in every run: introductions precede game traffic, removals are
    announced once, and an id that has left never comes back. */
module RelayCausality {
  import opened Words
  import opened Lists
  import opened Packets
  import opened Hubs
  import opened Relay
  import opened RelayTokens
  import opened RelayTraffic

  /** Every game packet of `c` that comes after `d` has been told its id comes after AddClient(c). */
  ghost predicate Caused(d: Id, down: seq<Packet>, c: Id) {
    forall k :: 0 <= k < |down| && IsGame(down[k].id) && Subject(down[k]) == c
      && IdPacket(CLIENT_ASSIGN_ID, d) in down[..k]
      ==> IdPacket(GAME_ADD_CLIENT, c) in down[..k]
  }

  /** RemoveClient(x) occurs at most once, and not at all while `x` may still leave. */
  ghost predicate RemovedOnce(down: seq<Packet>, x: Id, pending: bool) {
    multiset(down)[IdPacket(GAME_REMOVE_CLIENT, x)] <= if pending then 0 else 1
  }

  /** `x` has not been registered yet, or has not been announced as gone yet. */
  ghost predicate MayLeave(s: Sys, x: Id)
    requires s.done <= |s.inLog|
  {
    x in s.hub.clients || x in s.hub.garbage || Enrolled(s, x) == 0
  }

  /** An open connection that was ever registered still is. */
  ghost predicate StillListed(s: Sys, d: Id)
    requires s.done <= |s.inLog|
  {
    d in s.hub.open && Enrolled(s, d) >= 1 ==> d in s.hub.clients
  }

  /** Two registered connections: the open one has been sent the other's AddClient. */
  ghost predicate Introduced(s: Sys, d: Id, c: Id)
    requires d in s.hub.down
  {
    d in s.hub.open && d in s.hub.clients && c in s.hub.clients ==> IdPacket(GAME_ADD_CLIENT, c) in s.hub.down[d]
  }

  ghost predicate PairOk(s: Sys, d: Id, c: Id)
    requires Base(s) && d in s.peers
  {
    && Introduced(s, d, c)
    && (c in s.hub.clients ==> Caused(d, s.hub.down[d], c))
    && RemovedOnce(s.hub.down[d], c, MayLeave(s, c))
  }

  ghost predicate Causality(s: Sys) {
    && Traffic(s)
    && (forall d :: d in s.peers ==> StillListed(s, d))
    && (forall d, c :: d in s.peers ==> PairOk(s, d, c))
  }

  // ---------- the pieces of one Process step ----------

  lemma LivingMembers(ids: seq<Id>, open: set<Id>, x: Id)
    ensures x in Living(ids, open) <==> x in ids && x in open
  {
  }

  lemma ListedAfterProcess(s: Sys, x: Id)
    requires s.done < |s.inLog| && Enabled(s, Process) && Tokens(s)
    ensures var e := s.inLog[s.done];
            var t := Next(s, Process);
            && (x in t.hub.clients ==> x in s.hub.clients || (e.packet.id == CLIENT_REGISTER && x == e.from))
            && (x in s.hub.clients && x in s.hub.open ==> x in t.hub.clients)
            && (e.packet.id == CLIENT_REGISTER && x == e.from && x in s.hub.open ==> x in t.hub.clients)
            && (x in s.hub.clients && x !in t.hub.clients ==> x in t.hub.garbage)
            && (x in t.hub.garbage ==> x in s.hub.clients || (e.packet.id == CLIENT_REGISTER && x == e.from))
  {
    ProcessEffect(s);
    var e := s.inLog[s.done];
    if e.packet.id == CLIENT_REGISTER {
      var ids := s.hub.clients + [e.from];
      assert ids[|s.hub.clients|] == e.from;
      assert x in s.hub.clients ==> x in ids;
    }
  }

  lemma StillListedProcess(s: Sys, d: Id)
    requires Tokens(s) && StillListed(s, d) && Enabled(s, Process)
    ensures Next(s, Process).done <= |Next(s, Process).inLog| && StillListed(Next(s, Process), d)
  {
    EnrolledNext(s, d);
    ListedAfterProcess(s, d);
    ProcessEffect(s);
  }

  lemma StillListedOther(s: Sys, st: Step, d: Id)
    requires Tokens(s) && Enabled(s, st) && st != Process && d in s.peers && StillListed(s, d)
    ensures Next(s, st).done <= |Next(s, st).inLog| && StillListed(Next(s, st), d)
  {
    EnrolledGrows(s, st, d);
    HubKept(s, st, d);
  }

  lemma StillListedNewborn(s: Sys, st: Step, d: Id)
    requires Tokens(s) && Enabled(s, st) && st != Process && d !in s.peers
    ensures Next(s, st).done <= |Next(s, st).inLog| && StillListed(Next(s, st), d)
  {
    EnrolledGrows(s, st, d);
    NoRegisters(s.inLog[..s.done], d);
  }

  lemma StillListedStep(s: Sys, st: Step, d: Id)
    requires Causality(s) && Enabled(s, st) && Tokens(Next(s, st)) && d in Next(s, st).peers
    ensures StillListed(Next(s, st), d)
  {
    if st == Process {
      StillListedProcess(s, d);
    } else if d in s.peers {
      StillListedOther(s, st, d);
    } else {
      StillListedNewborn(s, st, d);
    }
  }

  /** What every step but Process leaves alone. */
  lemma HubKept(s: Sys, st: Step, d: Id)
    requires Base(s) && Enabled(s, st) && st != Process && d in s.peers
    ensures var t := Next(s, st);
            && d in t.peers && d in t.hub.down
            && t.hub.clients == s.hub.clients && t.hub.garbage == s.hub.garbage
            && (d in t.hub.open ==> d in s.hub.open)
            && t.hub.down[d] == s.hub.down[d] + (if st == Validate(d) then [NewPacket(CLIENT_ACCEPTED)] else [])
  {
  }

  lemma {:induction false} AddsContain(ids: seq<Id>, c: Id)
    requires c in ids
    ensures IdPacket(GAME_ADD_CLIENT, c) in IdPackets(GAME_ADD_CLIENT, ids)
  {
    var k :| 0 <= k < |ids| && ids[k] == c;
    assert IdPackets(GAME_ADD_CLIENT, ids)[k] == IdPacket(GAME_ADD_CLIENT, c);
  }

  /** A registration announces the new id to every open connection, and every listed id to the new one. */
  lemma WelcomeIntroduces(h: Hub, c: Id, d: Id, x: Id)
    requires d in h.open && x in Living(h.clients + [c], h.open) && (d == c || x == c)
    ensures IdPacket(GAME_ADD_CLIENT, x) in Welcome(h, c, d)
  {
    if d == c {
      AddsContain(Living(h.clients + [c], h.open), x);
    }
  }

  lemma IntroducedProcess(s: Sys, d: Id, c: Id)
    requires Causality(s) && Enabled(s, Process) && Tokens(Next(s, Process)) && d in s.peers
    ensures d in Next(s, Process).hub.down && Introduced(Next(s, Process), d, c)
  {
    var t := Next(s, Process);
    var e := s.inLog[s.done];
    ProcessEffect(s);
    ProcessDelta(s, d);
    assert PairOk(s, d, c);
    if d in t.hub.open && d in t.hub.clients && c in t.hub.clients {
      ListedAfterProcess(s, c);
      ListedAfterProcess(s, d);
      if e.packet.id == CLIENT_REGISTER && (d == e.from || c == e.from) {
        WelcomeIntroduces(s.hub, e.from, d, c);
        assert IdPacket(GAME_ADD_CLIENT, c) in Delta(s.hub, e.from, e.packet, d);
      }
    }
  }

  lemma CausedAppend(d: Id, down: seq<Packet>, more: seq<Packet>, c: Id)
    requires Caused(d, down, c)
    requires forall q :: q in more && IsGame(q.id) && Subject(q) == c ==>
               IdPacket(CLIENT_ASSIGN_ID, d) !in more &&
               (IdPacket(CLIENT_ASSIGN_ID, d) in down ==> IdPacket(GAME_ADD_CLIENT, c) in down)
    ensures Caused(d, down + more, c)
  {
    var all := down + more;
    forall k | 0 <= k < |all| && IsGame(all[k].id) && Subject(all[k]) == c && IdPacket(CLIENT_ASSIGN_ID, d) in all[..k]
      ensures IdPacket(GAME_ADD_CLIENT, c) in all[..k]
    {
      if k < |down| {
        assert all[..k] == down[..k] && all[k] == down[k];
      } else {
        assert all[k] in more;
        assert all[..k] == down + more[..k - |down|];
      }
    }
  }

  lemma CausedFresh(d: Id, down: seq<Packet>, c: Id)
    requires forall q :: q in down && IsGame(q.id) ==> Subject(q) != c
    ensures Caused(d, down, c)
  {
    forall k | 0 <= k < |down|
      ensures down[k] in down
    {
    }
  }

  lemma AssignedIsEnrolled(s: Sys, d: Id)
    requires Traffic(s) && d in s.peers && IdPacket(CLIENT_ASSIGN_ID, d) in s.hub.down[d]
    ensures Enrolled(s, d) >= 1
  {
    assert TrafficOk(s, d);
    IdPacketSubject(CLIENT_ASSIGN_ID, d);
  }

  /** What a relayed packet needs: its receiver, if registered, has been introduced to its sender. */
  lemma RelayedIsCaused(s: Sys, d: Id, c: Id, e: Entry, q: Packet)
    requires s.done < |s.inLog| && e == s.inLog[s.done] && d in s.peers && d in s.hub.down && c in s.hub.clients
    requires q in Delta(s.hub, e.from, e.packet, d) && IsGame(q.id) && Subject(q) == c
    requires Causality(s) && Enabled(s, Process)
    ensures IdPacket(CLIENT_ASSIGN_ID, d) !in Delta(s.hub, e.from, e.packet, d)
    ensures IdPacket(CLIENT_ASSIGN_ID, d) in s.hub.down[d] ==> IdPacket(GAME_ADD_CLIENT, c) in s.hub.down[d]
  {
    DeltaMembers(s.hub, e.from, e.packet, d, q);
    IdPacketSubject(CLIENT_ASSIGN_ID, d);
    if IdPacket(CLIENT_ASSIGN_ID, d) in Delta(s.hub, e.from, e.packet, d) {
      DeltaMembers(s.hub, e.from, e.packet, d, IdPacket(CLIENT_ASSIGN_ID, d));
    }
    if IdPacket(CLIENT_ASSIGN_ID, d) in s.hub.down[d] {
      AssignedIsEnrolled(s, d);
      assert StillListed(s, d) && PairOk(s, d, c);
    }
  }

  lemma CausedProcess(s: Sys, d: Id, c: Id)
    requires Causality(s) && Enabled(s, Process) && Tokens(Next(s, Process)) && d in s.peers
    ensures var t := Next(s, Process); d in t.hub.down && (c in t.hub.clients ==> Caused(d, t.hub.down[d], c))
  {
    var t := Next(s, Process);
    var e := s.inLog[s.done];
    var more := Delta(s.hub, e.from, e.packet, d);
    ProcessDelta(s, d);
    ListedAfterProcess(s, c);
    if c in s.hub.clients {
      assert PairOk(s, d, c);
      forall q | q in more && IsGame(q.id) && Subject(q) == c
        ensures IdPacket(CLIENT_ASSIGN_ID, d) !in more
        ensures IdPacket(CLIENT_ASSIGN_ID, d) in s.hub.down[d] ==> IdPacket(GAME_ADD_CLIENT, c) in s.hub.down[d]
      {
        RelayedIsCaused(s, d, c, e, q);
      }
      CausedAppend(d, s.hub.down[d], more, c);
    } else if c in t.hub.clients {
      RegisterIsFirst(s);
      FreshIdIsUnused(s, d, c);
      CausedFresh(d, s.hub.down[d], c);
      CausedAppend(d, s.hub.down[d], more, c) by {
        forall q | q in more
          ensures !IsGame(q.id)
        {
          DeltaMembers(s.hub, e.from, e.packet, d, q);
          IdPacketSubject(CLIENT_ASSIGN_ID, e.from);
        }
      }
    }
  }

  lemma FreshIdIsUnused(s: Sys, d: Id, c: Id)
    requires Traffic(s) && d in s.peers && Enrolled(s, c) == 0
    ensures forall q :: q in s.hub.down[d] && (IsGame(q.id) || IsNotice(q.id)) ==> Subject(q) != c
  {
    assert TrafficOk(s, d);
  }

  // ---------- removals ----------

  lemma {:induction false} NoticesOnce(t: Word, ids: seq<Id>, x: Id)
    requires NoDup(ids)
    ensures multiset(IdPackets(t, ids))[IdPacket(t, x)] == if x in ids then 1 else 0
  {
    if ids != [] {
      var rest, last := ids[..|ids| - 1], ids[|ids| - 1];
      NoticesOnce(t, rest, x);
      IdPacketSubject(t, x);
      IdPacketSubject(t, last);
      assert multiset(IdPackets(t, ids)) == multiset(IdPackets(t, rest)) + multiset{IdPacket(t, last)};
      assert last !in rest;
      assert ids == rest + [last];
    }
  }

  lemma WelcomeRemovesNobody(h: Hub, c: Id, d: Id, x: Id)
    ensures IdPacket(GAME_REMOVE_CLIENT, x) !in Welcome(h, c, d)
  {
    IdPacketSubject(GAME_REMOVE_CLIENT, x);
    if IdPacket(GAME_REMOVE_CLIENT, x) in Welcome(h, c, d) {
      WelcomeMembers(h, c, d, IdPacket(GAME_REMOVE_CLIENT, x));
      IdPacketSubject(CLIENT_ASSIGN_ID, c);
    }
  }

  lemma CountsApart(notices: seq<Packet>, rest: seq<Packet>, p: Packet)
    requires p !in rest
    ensures multiset(notices + rest)[p] == multiset(notices)[p]
  {
    assert multiset(notices + rest) == multiset(notices) + multiset(rest);
  }

  /** One step announces the removal of `x` to an open connection exactly if `x` is garbage, and once. */
  lemma RemovalsInDelta(h: Hub, c: Id, p: Packet, d: Id, x: Id)
    requires NoDup(h.garbage) && d in h.open
    ensures multiset(Delta(h, c, p, d))[IdPacket(GAME_REMOVE_CLIENT, x)] == if x in h.garbage then 1 else 0
  {
    var notices := IdPackets(GAME_REMOVE_CLIENT, h.garbage);
    var removal := IdPacket(GAME_REMOVE_CLIENT, x);
    NoticesOnce(GAME_REMOVE_CLIENT, h.garbage, x);
    IdPacketSubject(GAME_REMOVE_CLIENT, x);
    WelcomeRemovesNobody(h, c, d, x);
    CountsApart(notices, Welcome(h, c, d), removal);
    if IsGame(p.id) {
      CountsApart(notices, [p], removal);
    }
    CountsApart(notices, [], removal);
  }

  lemma RemovedOnceProcess(s: Sys, d: Id, x: Id)
    requires Causality(s) && Enabled(s, Process) && Tokens(Next(s, Process)) && d in s.peers
    ensures var t := Next(s, Process); d in t.hub.down && RemovedOnce(t.hub.down[d], x, MayLeave(t, x))
  {
    var t := Next(s, Process);
    var e := s.inLog[s.done];
    assert PairOk(s, d, x);
    ProcessDelta(s, d);
    EnrolledGrows(s, Process, x);
    ListedAfterProcess(s, x);
    if e.packet.id == CLIENT_REGISTER {
      RegisterIsFirst(s);
    }
    if d in s.hub.open {
      RemovalsInDelta(s.hub, e.from, e.packet, d, x);
    }
    if x in s.hub.garbage && x in s.peers {
      assert TokenOk(s, x);
    }
  }

  lemma PairProcess(s: Sys, d: Id, c: Id)
    requires Causality(s) && Enabled(s, Process) && Traffic(Next(s, Process)) && d in s.peers
    ensures d in Next(s, Process).peers && PairOk(Next(s, Process), d, c)
  {
    IntroducedProcess(s, d, c);
    CausedProcess(s, d, c);
    RemovedOnceProcess(s, d, c);
  }

  lemma RemovedOnceAccepted(down: seq<Packet>, x: Id, pending: bool)
    requires RemovedOnce(down, x, pending)
    ensures RemovedOnce(down + [NewPacket(CLIENT_ACCEPTED)], x, pending)
  {
    IdPacketSubject(GAME_REMOVE_CLIENT, x);
  }

  /** A pair stays in order while the vectors stand still and at most an Accepted is sent. */
  lemma PairKept(s: Sys, t: Sys, d: Id, c: Id)
    requires Base(s) && Base(t) && d in s.peers && d in t.peers && PairOk(s, d, c)
    requires t.hub.clients == s.hub.clients && (d in t.hub.open ==> d in s.hub.open)
    requires MayLeave(t, c) == MayLeave(s, c)
    requires t.hub.down[d] == s.hub.down[d] || t.hub.down[d] == s.hub.down[d] + [NewPacket(CLIENT_ACCEPTED)]
    ensures PairOk(t, d, c)
  {
    if t.hub.down[d] != s.hub.down[d] {
      if c in s.hub.clients {
        CausedAppend(d, s.hub.down[d], [NewPacket(CLIENT_ACCEPTED)], c);
      }
      RemovedOnceAccepted(s.hub.down[d], c, MayLeave(s, c));
    }
  }

  lemma PairOther(s: Sys, st: Step, d: Id, c: Id)
    requires Causality(s) && Enabled(s, st) && Base(Next(s, st)) && d in s.peers && st != Process
    ensures d in Next(s, st).peers && PairOk(Next(s, st), d, c)
  {
    assert PairOk(s, d, c);
    EnrolledGrows(s, st, c);
    HubKept(s, st, d);
    assert s.hub.down[d] + [] == s.hub.down[d];
    PairKept(s, Next(s, st), d, c);
  }

  lemma PairNewborn(s: Sys, c: Id)
    requires Causality(s) && Enabled(s, Accept) && Traffic(Next(s, Accept))
    ensures PairOk(Next(s, Accept), s.next, c)
  {
    assert s.next !in s.hub.clients;
  }

  lemma PairStepAt(s: Sys, st: Step, t: Sys, d: Id, c: Id)
    requires Causality(s) && Enabled(s, st) && t == Next(s, st) && Traffic(t) && d in t.peers
    ensures PairOk(t, d, c)
  {
    if st == Process {
      PairProcess(s, d, c);
    } else if d !in s.peers {
      PairNewborn(s, c);
    } else {
      PairOther(s, st, d, c);
    }
  }

  lemma CausalityStep(s: Sys, st: Step)
    requires Causality(s) && Enabled(s, st)
    ensures Causality(Next(s, st))
  {
    var t := Next(s, st);
    TrafficStep(s, st);
    forall d | d in t.peers
      ensures StillListed(t, d)
    {
      StillListedStep(s, st, d);
    }
    forall d, c | d in t.peers
      ensures PairOk(t, d, c)
    {
      PairStepAt(s, st, t, d, c);
    }
  }
}
