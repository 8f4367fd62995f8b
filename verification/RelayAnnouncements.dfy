/** Which ids a client is told of: exactly when it hears of another one, that a client that is not spoiled
    hears of every other one at most once, and how long a roster can therefore get. */
module RelayAnnouncements {
  import opened Words
  import opened Lists
  import opened Packets
  import opened Hubs
  import opened ClientViews
  import opened Relay
  import opened RelayTokens
  import opened RelayTraffic
  import opened RelayCausality
  import opened RelayRoster
  import opened RelayTheorems

  // ---------- who is announced how often ----------

  function Adds(ps: seq<Packet>, x: Id): nat {
    multiset(ps)[IdPacket(GAME_ADD_CLIENT, x)]
  }

  /** An unspoiled client is told of every other id at most once, and of its own at most twice. */
  ghost predicate Few(down: seq<Packet>, d: Id, x: Id) {
    Adds(down, x) <= if x == d then 2 else 1
  }

  ghost predicate FewOk(s: Sys, d: Id)
    requires d in s.peers && d in s.hub.down
  {
    !s.peers[d].spoiled ==> forall x :: Few(s.hub.down[d], d, x)
  }

  lemma AddsAppend(ps: seq<Packet>, qs: seq<Packet>, x: Id)
    ensures Adds(ps + qs, x) == Adds(ps, x) + Adds(qs, x)
  {
    assert multiset(ps + qs) == multiset(ps) + multiset(qs);
  }

  lemma NotAdded(ps: seq<Packet>, x: Id)
    ensures Adds(ps, x) == 0 <==> IdPacket(GAME_ADD_CLIENT, x) !in ps
  {
  }

  lemma AddsInWelcome(h: Hub, c: Id, x: Id)
    requires c in h.open && NoDup(h.clients + [c])
    ensures Adds(Welcome(h, c, c), x) ==
            (if x == c then 1 else 0) + (if x in Living(h.clients + [c], h.open) then 1 else 0)
  {
    var living := Living(h.clients + [c], h.open);
    var head := [IdPacket(CLIENT_ASSIGN_ID, c), IdPacket(GAME_ADD_CLIENT, c)];
    DropNoDup(h.clients + [c], Closed(h.clients + [c], h.open));
    NoticesOnce(GAME_ADD_CLIENT, living, x);
    AddsAppend(head, IdPackets(GAME_ADD_CLIENT, living), x);
    AddsInHead(c, x);
  }

  lemma AddsInHead(c: Id, x: Id)
    ensures Adds([IdPacket(CLIENT_ASSIGN_ID, c), IdPacket(GAME_ADD_CLIENT, c)], x) == if x == c then 1 else 0
  {
    IdPacketSubject(CLIENT_ASSIGN_ID, c);
    IdPacketSubject(GAME_ADD_CLIENT, c);
    IdPacketSubject(GAME_ADD_CLIENT, x);
  }

  lemma {:induction false} NoAddsInRemovals(ids: seq<Id>, x: Id)
    ensures Adds(IdPackets(GAME_REMOVE_CLIENT, ids), x) == 0
  {
    NotAdded(IdPackets(GAME_REMOVE_CLIENT, ids), x);
    IdPacketSubject(GAME_ADD_CLIENT, x);
    if IdPacket(GAME_ADD_CLIENT, x) in IdPackets(GAME_REMOVE_CLIENT, ids) {
      IdPacketsMember(GAME_REMOVE_CLIENT, ids, IdPacket(GAME_ADD_CLIENT, x));
    }
  }

  lemma {:induction false} NoticesAdd(ids: seq<Id>, more: seq<Packet>, x: Id)
    ensures Adds(IdPackets(GAME_REMOVE_CLIENT, ids) + more, x) == Adds(more, x)
  {
    NoAddsInRemovals(ids, x);
    AddsAppend(IdPackets(GAME_REMOVE_CLIENT, ids), more, x);
  }

  lemma NoAdds(p: Packet, x: Id)
    requires p.id != GAME_ADD_CLIENT
    ensures Adds([p], x) == 0 && Adds([], x) == 0
  {
    IdPacketSubject(GAME_ADD_CLIENT, x);
  }

  /** What one handled packet announces to `d`. */
  lemma AddsInDelta(h: Hub, c: Id, p: Packet, d: Id, x: Id)
    requires p.id == CLIENT_REGISTER ==> NoDup(h.clients + [c])
    ensures Adds(Delta(h, c, p, d), x) ==
            if d !in h.open || p.id != CLIENT_REGISTER then 0
            else if d != c then (if x == c then 1 else 0)
            else (if x == c then 1 else 0) + (if x in Living(h.clients + [c], h.open) then 1 else 0)
  {
    if p.id == CLIENT_REGISTER {
      NoticesAdd(h.garbage, Welcome(h, c, d), x);
      if d in h.open && d == c {
        AddsInWelcome(h, c, x);
      } else if d in h.open {
        AddsInOne(c, x);
      }
    } else {
      NoticesAdd(h.garbage, [p], x);
      NoticesAdd(h.garbage, [], x);
      if IsGame(p.id) {
        NoAdds(p, x);
      }
    }
  }

  lemma AddsInOne(c: Id, x: Id)
    ensures Adds([IdPacket(GAME_ADD_CLIENT, c)], x) == if x == c then 1 else 0
  {
    IdPacketSubject(GAME_ADD_CLIENT, c);
    IdPacketSubject(GAME_ADD_CLIENT, x);
  }

  // ---------- who is announced to whom ----------

  /** The step tells client `d` of `c`: one of the two registers while `d` is connected, and either it is
      `c` or `c` is listed and connected. */
  ghost predicate Introducing(s: Sys, t: Sys, d: Id, c: Id) {
    && (Registering(s, t, c) || (Registering(s, t, d) && c in s.hub.clients && c in s.hub.open))
    && d in s.hub.open
  }

  ghost predicate IntroducedAt(run: seq<Sys>, i: nat, d: Id, c: Id) {
    i + 1 < |run| && Introducing(run[i], run[i + 1], d, c)
  }

  lemma ToldOf(s: Sys, d: Id, c: Id)
    requires Reachable(s) && Enabled(s, Process) && d in s.peers && d in s.hub.down && c != d
    ensures var e := s.inLog[s.done];
            Adds(Delta(s.hub, e.from, e.packet, d), c) ==
            if e.packet.id == CLIENT_REGISTER && d in s.hub.open
               && (e.from == c || (e.from == d && c in s.hub.clients && c in s.hub.open)) then 1 else 0
  {
    var e := s.inLog[s.done];
    EntryAt(s);
    BaseAt(s);
    if e.packet.id == CLIENT_REGISTER {
      NoDupConcat(s.hub.clients, [e.from]);
      LivingMembers(s.hub.clients + [e.from], s.hub.open, c);
    }
    AddsInDelta(s.hub, e.from, e.packet, d, c);
  }

  function One(b: bool): nat {
    if b then 1 else 0
  }

  lemma ToldByProcess(s: Sys, t: Sys, d: Id, c: Id)
    requires Reachable(s) && Enabled(s, Process) && t == Next(s, Process) && d in s.peers && d in s.hub.down && c != d
    ensures d in t.hub.down && Adds(t.hub.down[d], c) == Adds(s.hub.down[d], c) + One(Introducing(s, t, d, c))
  {
    var e := s.inLog[s.done];
    ProcessedAt(s, d);
    ToldOf(s, d, c);
    AddsAppend(s.hub.down[d], Delta(s.hub, e.from, e.packet, d), c);
  }

  lemma RegisterChangesDone(s: Sys, st: Step, d: Id)
    requires Enabled(s, st) && st != Process
    ensures !Registering(s, Next(s, st), d)
  {
  }

  lemma ToldByOther(s: Sys, st: Step, d: Id, c: Id)
    requires Reachable(s) && Enabled(s, st) && st != Process && d in s.peers && d in s.hub.down && c != d
    ensures var t := Next(s, st);
            d in t.hub.down && Adds(t.hub.down[d], c) == Adds(s.hub.down[d], c) && !Introducing(s, t, d, c)
  {
    BaseAt(s);
    HubKept(s, st, d);
    AcceptedTellsNothing(s.hub.down[d], c);
    RegisterChangesDone(s, st, d);
    RegisterChangesDone(s, st, c);
  }

  lemma NewcomerHasNothing(s: Sys, t: Sys, d: Id)
    requires Base(s) && Follows(s, t) && d !in s.peers && d in t.peers
    ensures d in t.hub.down && t.hub.down[d] == []
  {
  }

  lemma NewcomerIsToldNothing(s: Sys, t: Sys, d: Id, c: Id)
    requires Reachable(s) && Follows(s, t) && d !in s.peers && d in t.peers && d in t.hub.down
    ensures Adds(t.hub.down[d], c) == 0 && !Introducing(s, t, d, c)
  {
    BaseAt(s);
    OpenIsKnown(s, d);
  }

  /** Who is told of whom by one step. */
  lemma ToldInStep(s: Sys, t: Sys, d: Id, c: Id)
    requires Reachable(s) && Follows(s, t) && d in t.peers && d in t.hub.down && c != d
    ensures d in s.peers ==> d in s.hub.down
    ensures Adds(t.hub.down[d], c)
            == (if d in s.peers then Adds(s.hub.down[d], c) else 0) + One(Introducing(s, t, d, c))
  {
    if d !in s.peers {
      NewcomerIsToldNothing(s, t, d, c);
    } else {
      TrafficAt(s, d);
      var st :| Enabled(s, st) && t == Next(s, st);
      if st == Process {
        ToldByProcess(s, t, d, c);
      } else {
        ToldByOther(s, st, d, c);
      }
    }
  }

  lemma OpenIsKnown(s: Sys, d: Id)
    requires Reachable(s)
    ensures d in s.hub.open ==> d in s.peers
  {
    if d in s.hub.open {
      RosterAt(s, d);
    }
  }

  lemma AcceptedTellsNothing(down: seq<Packet>, x: Id)
    ensures Adds(down + [NewPacket(CLIENT_ACCEPTED)], x) == Adds(down, x) == Adds(down + [], x)
  {
    AddsAppend(down, [NewPacket(CLIENT_ACCEPTED)], x);
    AddsAppend(down, [], x);
    NoAdds(NewPacket(CLIENT_ACCEPTED), x);
  }

  /** How often client `d` has been told of `c` up to the `k`-th state of the run. */
  ghost function Introductions(run: seq<Sys>, k: nat, d: Id, c: Id): nat {
    if k == 0 then 0 else Introductions(run, k - 1, d, c) + One(IntroducedAt(run, k - 1, d, c))
  }

  lemma {:induction false} SomeIntroduction(run: seq<Sys>, k: nat, d: Id, c: Id) returns (i: nat)
    requires Introductions(run, k, d, c) > 0
    ensures i < k && IntroducedAt(run, i, d, c)
  {
    i := k - 1;
    if !IntroducedAt(run, i, d, c) {
      i := SomeIntroduction(run, k - 1, d, c);
    }
  }

  lemma {:induction false} IntroductionCounts(run: seq<Sys>, k: nat, i: nat, d: Id, c: Id)
    requires i < k && IntroducedAt(run, i, d, c)
    ensures Introductions(run, k, d, c) > 0
  {
    if i < k - 1 {
      IntroductionCounts(run, k - 1, i, d, c);
    }
  }

  lemma {:induction false} ToldAlong(run: seq<Sys>, k: nat, d: Id, c: Id)
    requires IsRun(run) && k + 1 < |run| && d in run[k + 1].peers && c != d
    ensures d in run[k + 1].hub.down && (d in run[k].peers ==> d in run[k].hub.down)
    ensures Adds(run[k + 1].hub.down[d], c)
            == (if d in run[k].peers then Adds(run[k].hub.down[d], c) else 0) + One(IntroducedAt(run, k, d, c))
  {
    FollowsAt(run, k);
    ReachableAt(run, k + 1);
    TrafficAt(run[k + 1], d);
    ToldInStep(run[k], run[k + 1], d, c);
  }

  lemma {:induction false} NobodyAtFirst(run: seq<Sys>, d: Id)
    requires IsRun(run)
    ensures d !in run[0].peers
  {
    RunPrefix(run, 1);
  }

  lemma {:induction false} NotBeforeAccept(run: seq<Sys>, k: nat, d: Id, c: Id)
    requires IsRun(run) && k < |run| && d !in run[k].peers
    ensures Introductions(run, k, d, c) == 0
  {
    if Introductions(run, k, d, c) > 0 {
      var i := SomeIntroduction(run, k, d, c);
      ReachableAt(run, i);
      OpenIsKnown(run[i], d);
      WasOpen(run, i, k, d);
    }
  }

  /** `d` has been told of `c` as often as that. */
  ghost predicate Told(s: Sys, d: Id, c: Id, n: nat) {
    d in s.peers ==> d in s.hub.down && Adds(s.hub.down[d], c) == n
  }

  lemma {:induction false} ToldOnceMore(run: seq<Sys>, k: nat, d: Id, c: Id)
    requires IsRun(run) && k + 1 < |run| && c != d && Told(run[k], d, c, Introductions(run, k, d, c))
    ensures Told(run[k + 1], d, c, Introductions(run, k + 1, d, c))
  {
    if d in run[k + 1].peers {
      ToldAlong(run, k, d, c);
      if d !in run[k].peers {
        NotBeforeAccept(run, k, d, c);
      }
    }
  }

  lemma {:induction false} ToldBy(run: seq<Sys>, k: nat, d: Id, c: Id)
    requires IsRun(run) && k < |run| && c != d
    ensures Told(run[k], d, c, Introductions(run, k, d, c))
  {
    if k == 0 {
      NobodyAtFirst(run, d);
    } else {
      ToldBy(run, k - 1, d, c);
      ToldOnceMore(run, k - 1, d, c);
    }
  }

  /** Introductions, exactly, in every run: a client has been sent AddClient of another one once for every
      time that the other one was registered while the client was connected, or the client was registered
      while connected and the other one was then listed and connected; and so not at all without one. */
  lemma ToldExactly(run: seq<Sys>, d: Id, c: Id)
    requires IsRun(run) && d in run[|run| - 1].peers && c != d
    ensures d in run[|run| - 1].hub.down
    ensures Adds(run[|run| - 1].hub.down[d], c) == Introductions(run, |run| - 1, d, c)
    ensures IdPacket(GAME_ADD_CLIENT, c) in run[|run| - 1].hub.down[d] <==> exists i: nat :: IntroducedAt(run, i, d, c)
  {
    ToldBy(run, |run| - 1, d, c);
    NotAdded(run[|run| - 1].hub.down[d], c);
    if Introductions(run, |run| - 1, d, c) > 0 {
      var i := SomeIntroduction(run, |run| - 1, d, c);
    }
    if i: nat :| IntroducedAt(run, i, d, c) {
      IntroductionCounts(run, |run| - 1, i, d, c);
    }
  }

  /** So a game packet that the server relays now comes after AddClient of its sender exactly under that
      condition. */
  lemma {:induction false} IntroducedExactly(run: seq<Sys>, t: Sys, d: Id)
    requires IsRun(run) && Enabled(run[|run| - 1], Process) && t == Next(run[|run| - 1], Process)
    requires var s := run[|run| - 1];
             IsGame(s.inLog[s.done].packet.id) && d in s.peers && d in s.hub.open && d != s.inLog[s.done].from
    ensures d in t.hub.down && t.hub.down[d] != []
    ensures var e, k := run[|run| - 1].inLog[run[|run| - 1].done], |t.hub.down[d]| - 1;
            && t.hub.down[d][k] == e.packet
            && (IdPacket(GAME_ADD_CLIENT, e.from) in t.hub.down[d][..k] <==>
                exists i: nat :: IntroducedAt(run, i, d, e.from))
  {
    var s := run[|run| - 1];
    var e := s.inLog[s.done];
    ReachableAt(run, |run| - 1);
    RelayedIsLast(s, t, d);
    ToldExactly(run, d, e.from);
    NotAdded(s.hub.down[d], e.from);
    NoticesTellNothing(s.hub.down[d], s.hub.garbage, e.from);
  }

  lemma {:induction false} NoticesTellNothing(down: seq<Packet>, ids: seq<Id>, x: Id)
    ensures IdPacket(GAME_ADD_CLIENT, x) in down + IdPackets(GAME_REMOVE_CLIENT, ids)
            <==> IdPacket(GAME_ADD_CLIENT, x) in down
  {
    NoAddsInRemovals(ids, x);
    NotAdded(IdPackets(GAME_REMOVE_CLIENT, ids), x);
  }

  // ---------- preservation ----------

  lemma {:induction false} RemoveFirstOthers(s: seq<Id>, x: Id, y: Id)
    requires y in s && y != x
    ensures y in RemoveFirst(s, x)
  {
    if s[0] != x && s[0] != y {
      RemoveFirstOthers(s[1..], x, y);
    }
  }

  lemma {:induction false} JustAdded(d: Id, ps: seq<Packet>, x: Id)
    requires FIRST_ID <= d && FIRST_ID <= x && x != d && forall p :: p in ps ==> DownWire(d, p)
    ensures x in Handle(HandleAll(NEWBORN, ps), IdPacket(GAME_ADD_CLIENT, x)).roster
  {
    ViewHonest(d, ps);
    HandleAdded(HandleAll(NEWBORN, ps), x);
  }

  lemma StaysOn(v: View, p: Packet, x: Id)
    requires x in v.roster && (p.id == GAME_REMOVE_CLIENT ==> Subject(p) != x)
    ensures x in Handle(v, p).roster
  {
    if p.id == GAME_REMOVE_CLIENT && 4 <= |p.body| && Subject(p) != v.id {
      RemoveFirstOthers(v.roster, Subject(p), x);
    }
  }

  lemma StillOn(v: View, d: Id, p: Packet, x: Id)
    requires DownWire(d, p) && p != IdPacket(GAME_REMOVE_CLIENT, x) && x in v.roster
    ensures x in Handle(v, p).roster
  {
    if p.id == GAME_REMOVE_CLIENT {
      NoticeIs(d, p);
    }
    StaysOn(v, p, x);
  }

  lemma {:induction false} AddedStep(d: Id, rest: seq<Packet>, p: Packet, x: Id)
    requires FIRST_ID <= d && FIRST_ID <= x && x != d && DownWire(d, p) && forall q :: q in rest ==> DownWire(d, q)
    requires p == IdPacket(GAME_ADD_CLIENT, x) || x in HandleAll(NEWBORN, rest).roster
    requires p != IdPacket(GAME_REMOVE_CLIENT, x)
    ensures x in HandleAll(NEWBORN, rest + [p]).roster
  {
    HandleOne(NEWBORN, rest, p);
    if p == IdPacket(GAME_ADD_CLIENT, x) {
      JustAdded(d, rest, x);
    } else {
      StillOn(HandleAll(NEWBORN, rest), d, p, x);
    }
  }

  /** An announced id stays on the roster until its removal is announced. */
  lemma {:induction false} AddedStays(d: Id, ps: seq<Packet>, x: Id)
    requires FIRST_ID <= d && FIRST_ID <= x && x != d && forall p :: p in ps ==> DownWire(d, p)
    requires IdPacket(GAME_ADD_CLIENT, x) in ps && IdPacket(GAME_REMOVE_CLIENT, x) !in ps
    ensures x in HandleAll(NEWBORN, ps).roster
  {
    var rest, p := ps[..|ps| - 1], ps[|ps| - 1];
    assert ps == rest + [p];
    if p != IdPacket(GAME_ADD_CLIENT, x) {
      MemberOfSnoc(rest, p, IdPacket(GAME_ADD_CLIENT, x));
      AddedStays(d, rest, x);
    }
    AddedStep(d, rest, p, x);
  }

  /** An id that nobody has registered has not been announced. */
  lemma UnregisteredIsNotAdded(s: Sys, d: Id, x: Id)
    requires Reachable(s) && d in s.peers && d in s.hub.down && s.done <= |s.inLog| && Enrolled(s, x) == 0
    ensures Adds(s.hub.down[d], x) == 0
  {
    TrafficAt(s, d);
    NotAdded(s.hub.down[d], x);
    IdPacketSubject(GAME_ADD_CLIENT, x);
  }

  /** A client whose registration does not spoil it has not been told of those it is about to be told of. */
  lemma RegistrantHasNotHeard(s: Sys, d: Id, x: Id)
    requires Reachable(s) && Enabled(s, Process) && d in s.peers && d in s.hub.down && x != d
    requires s.inLog[s.done] == Entry(d, s.inLog[s.done].packet) && s.inLog[s.done].packet.id == CLIENT_REGISTER
    requires !Spoils(s, d) && x in s.hub.clients && x in s.hub.open
    ensures Adds(s.hub.down[d], x) == 0
  {
    TrafficAt(s, d);
    BaseAt(s);
    PairAt(s, d, x);
    NotAdded(s.hub.down[d], x);
    if IdPacket(GAME_ADD_CLIENT, x) in s.hub.down[d] {
      NotRemoved(s.hub.down[d], x);
      AddedStays(d, s.hub.down[d], x);
    }
  }

  lemma NotRemoved(ps: seq<Packet>, x: Id)
    requires RemovedOnce(ps, x, true)
    ensures IdPacket(GAME_REMOVE_CLIENT, x) !in ps
  {
  }

  lemma FewGrows(s: Sys, d: Id, x: Id)
    requires Reachable(s) && Enabled(s, Process) && d in s.peers && d in s.hub.down && FewOk(s, d)
    requires !s.peers[d].spoiled && !Spoils(s, d)
    ensures var e := s.inLog[s.done]; Few(s.hub.down[d] + Delta(s.hub, e.from, e.packet, d), d, x)
  {
    var e := s.inLog[s.done];
    assert Few(s.hub.down[d], d, x);
    EntryAt(s);
    BaseAt(s);
    if e.packet.id == CLIENT_REGISTER {
      NoDupConcat(s.hub.clients, [e.from]);
      UnregisteredIsNotAdded(s, d, e.from);
      if d == e.from && x in Living(s.hub.clients + [d], s.hub.open) && x != d {
        LivingMembers(s.hub.clients + [d], s.hub.open, x);
        RegistrantHasNotHeard(s, d, x);
      }
    }
    AddsInDelta(s.hub, e.from, e.packet, d, x);
    AddsAppend(s.hub.down[d], Delta(s.hub, e.from, e.packet, d), x);
  }

  lemma FewProcess(s: Sys, d: Id)
    requires Reachable(s) && Enabled(s, Process) && d in s.peers && d in s.hub.down && FewOk(s, d)
    ensures d in Next(s, Process).peers && d in Next(s, Process).hub.down && FewOk(Next(s, Process), d)
  {
    ProcessedAt(s, d);
    if !Next(s, Process).peers[d].spoiled {
      forall x
        ensures Few(Next(s, Process).hub.down[d], d, x)
      {
        FewGrows(s, d, x);
      }
    }
  }

  lemma AcceptedAddsNothing(down: seq<Packet>, d: Id, x: Id)
    requires Few(down, d, x)
    ensures Few(down + [NewPacket(CLIENT_ACCEPTED)], d, x) && Few(down + [], d, x)
  {
    AddsAppend(down, [NewPacket(CLIENT_ACCEPTED)], x);
    AddsAppend(down, [], x);
    IdPacketSubject(GAME_ADD_CLIENT, x);
  }

  lemma FewOther(s: Sys, st: Step, d: Id)
    requires Reachable(s) && Enabled(s, st) && st != Process && d in s.peers && d in s.hub.down && FewOk(s, d)
    ensures d in Next(s, st).peers && d in Next(s, st).hub.down && FewOk(Next(s, st), d)
  {
    BaseAt(s);
    HubKept(s, st, d);
    SpoiledKept(s, st, d);
    if !s.peers[d].spoiled {
      forall x
        ensures Few(Next(s, st).hub.down[d], d, x)
      {
        assert Few(s.hub.down[d], d, x);
        AcceptedAddsNothing(s.hub.down[d], d, x);
      }
    }
  }

  lemma FewStep(s: Sys, t: Sys, d: Id)
    requires Reachable(s) && Follows(s, t) && d in t.peers && d in t.hub.down
    requires d in s.peers && d in s.hub.down ==> FewOk(s, d)
    ensures FewOk(t, d)
  {
    var st :| Enabled(s, st) && t == Next(s, st);
    BaseAt(s);
    if d in s.peers {
      if st == Process {
        FewProcess(s, d);
      } else {
        FewOther(s, st, d);
      }
    }
  }

  lemma {:induction false} RunFew(run: seq<Sys>, d: Id)
    requires IsRun(run)
    ensures var s := run[|run| - 1]; d in s.peers && d in s.hub.down ==> FewOk(s, d)
  {
    var last := |run| - 1;
    if last > 0 {
      RunFew(run[..last], d);
      FollowsAt(run, last - 1);
      assert run[..last][last - 1] == run[last - 1];
      if d in run[last].peers && d in run[last].hub.down {
        FewStep(run[last - 1], run[last], d);
      }
    }
  }

  /** No client that is not spoiled is told of another one twice, over its whole life. */
  lemma ToldOnce(s: Sys, d: Id, x: Id)
    requires Reachable(s) && d in s.peers && !s.peers[d].spoiled
    ensures d in s.hub.down && Adds(s.hub.down[d], x) <= if x == d then 2 else 1
  {
    BaseAt(s);
    var run :| IsRun(run) && run[|run| - 1] == s;
    RunFew(run, d);
    assert Few(s.hub.down[d], d, x);
  }

  // ---------- and any client at most twice ----------

  /** Of another client it is told by the broadcast when that one registers, and when it registers itself. */
  ghost predicate AtMostTwice(s: Sys, d: Id, x: Id)
    requires d in s.hub.down && s.done <= |s.inLog|
  {
    Adds(s.hub.down[d], x) <=
    (if Enrolled(s, x) >= 1 then 1 else 0) + (if Enrolled(s, d) >= 1 then 1 else 0)
  }

  /** One step tells `d` of `x` only if one of them registers, and then once for each. */
  lemma ToldOncePerRegistration(s: Sys, e: Entry, d: Id, x: Id)
    requires s.done < |s.inLog| && e == s.inLog[s.done] && Reachable(s) && Enabled(s, Process)
    ensures Adds(Delta(s.hub, e.from, e.packet, d), x) <=
            (if e.packet.id == CLIENT_REGISTER && e.from == x then 1 else 0)
            + (if e.packet.id == CLIENT_REGISTER && e.from == d then 1 else 0)
  {
    EntryAt(s);
    BaseAt(s);
    if e.packet.id == CLIENT_REGISTER {
      NoDupConcat(s.hub.clients, [e.from]);
    }
    AddsInDelta(s.hub, e.from, e.packet, d, x);
  }

  /** A Register that is handled is the first one of its sender. */
  lemma EnrolledByProcess(s: Sys, e: Entry, x: Id)
    requires s.done < |s.inLog| && e == s.inLog[s.done] && Reachable(s) && Enabled(s, Process)
    ensures Next(s, Process).done <= |Next(s, Process).inLog|
    ensures Enrolled(Next(s, Process), x)
            == Enrolled(s, x) + (if e.packet.id == CLIENT_REGISTER && e.from == x then 1 else 0)
    ensures e.packet.id == CLIENT_REGISTER && e.from == x ==> Enrolled(s, x) == 0
  {
    EntryAt(s);
    EnrolledNext(s, x);
  }

  lemma TwiceProcess(s: Sys, e: Entry, d: Id, x: Id)
    requires s.done < |s.inLog| && e == s.inLog[s.done] && d in s.hub.down && AtMostTwice(s, d, x)
    requires Reachable(s) && Enabled(s, Process) && d in s.peers
    ensures var t := Next(s, Process); d in t.hub.down && t.done <= |t.inLog| && AtMostTwice(t, d, x)
  {
    ProcessedAt(s, d);
    EnrolledByProcess(s, e, x);
    EnrolledByProcess(s, e, d);
    ToldOncePerRegistration(s, e, d, x);
    AddsAppend(s.hub.down[d], Delta(s.hub, e.from, e.packet, d), x);
  }

  lemma TwiceOther(s: Sys, st: Step, d: Id, x: Id)
    requires Reachable(s) && Enabled(s, st) && st != Process && d in s.peers && d in s.hub.down
    requires s.done <= |s.inLog| && AtMostTwice(s, d, x)
    ensures var t := Next(s, st); d in t.hub.down && t.done <= |t.inLog| && AtMostTwice(t, d, x)
  {
    ReachableInv(s);
    HubKept(s, st, d);
    EnrolledGrows(s, st, x);
    EnrolledGrows(s, st, d);
    AcceptedTellsNothing(s.hub.down[d], x);
  }

  ghost predicate TwiceAt(s: Sys, d: Id, x: Id) {
    d in s.peers && d in s.hub.down && s.done <= |s.inLog| ==> AtMostTwice(s, d, x)
  }

  lemma TwiceStep(s: Sys, t: Sys, d: Id, x: Id)
    requires Reachable(s) && Follows(s, t) && TwiceAt(s, d, x)
    ensures TwiceAt(t, d, x)
  {
    BaseAt(s);
    if d in s.peers {
      var st :| Enabled(s, st) && t == Next(s, st);
      if st == Process {
        TwiceProcess(s, s.inLog[s.done], d, x);
      } else {
        TwiceOther(s, st, d, x);
      }
    } else if d in t.peers && d in t.hub.down {
      NewcomerIsToldNothing(s, t, d, x);
    }
  }

  /** The step keeps it. */
  ghost predicate KeepsTwice(s: Sys, t: Sys, d: Id, x: Id) {
    TwiceAt(s, d, x) ==> TwiceAt(t, d, x)
  }

  lemma {:induction false} AlwaysKeepsTwice(run: seq<Sys>, d: Id, x: Id)
    requires IsRun(run)
    ensures forall k {:trigger run[k]} :: 0 < k < |run| ==> KeepsTwice(run[k - 1], run[k], d, x)
  {
    forall k {:trigger run[k]} | 0 < k < |run|
      ensures KeepsTwice(run[k - 1], run[k], d, x)
    {
      FollowsAt(run, k - 1);
      if TwiceAt(run[k - 1], d, x) {
        TwiceStep(run[k - 1], run[k], d, x);
      }
    }
  }

  lemma {:induction false} TwiceBy(run: seq<Sys>, k: nat, d: Id, x: Id)
    requires k < |run| && TwiceAt(run[0], d, x)
    requires forall i {:trigger run[i]} :: 0 < i < |run| ==> KeepsTwice(run[i - 1], run[i], d, x)
    ensures TwiceAt(run[k], d, x)
    decreases k
  {
    if k > 0 {
      TwiceBy(run, k - 1, d, x);
      assert KeepsTwice(run[k - 1], run[k], d, x);
    }
  }

  /** No client is ever told of any other one more than twice. */
  lemma ToldTwice(s: Sys, d: Id, x: Id)
    requires Reachable(s) && d in s.peers
    ensures d in s.hub.down && Adds(s.hub.down[d], x) <= 2
  {
    BaseAt(s);
    var run :| IsRun(run) && run[|run| - 1] == s;
    NobodyAtFirst(run, d);
    AlwaysKeepsTwice(run, d, x);
    TwiceBy(run, |run| - 1, d, x);
  }

  // ---------- so rosters stay short ----------

  lemma {:induction false} RosterCounts(d: Id, ps: seq<Packet>, x: Id)
    requires forall p :: p in ps ==> DownWire(d, p)
    ensures multiset(HandleAll(NEWBORN, ps).roster)[x] <= Adds(ps, x)
  {
    if ps != [] {
      var rest, p := ps[..|ps| - 1], ps[|ps| - 1];
      assert ps == rest + [p];
      RosterCounts(d, rest, x);
      AddsAppend(rest, [p], x);
      RosterGrows(HandleAll(NEWBORN, rest), d, p, x);
    }
  }

  lemma AddedCounts(v: View, y: Id, x: Id)
    ensures multiset(Handle(v, IdPacket(GAME_ADD_CLIENT, y)).roster)[x]
            <= multiset(v.roster)[x] + Adds([IdPacket(GAME_ADD_CLIENT, y)], x)
  {
    HandleAdded(v, y);
    AddsInOne(y, x);
    assert multiset(v.roster + [y]) == multiset(v.roster) + multiset{y};
  }

  lemma RemovedCounts(v: View, y: Id, x: Id)
    ensures multiset(Handle(v, IdPacket(GAME_REMOVE_CLIENT, y)).roster)[x] <= multiset(v.roster)[x]
  {
    HandleRemoved(v, y);
    RemoveFirstCounts(v.roster, y);
  }

  lemma OthersChangeNoRoster(v: View, p: Packet)
    requires !IsNotice(p.id)
    ensures Handle(v, p).roster == v.roster
  {
  }

  lemma NoticeIs(d: Id, p: Packet)
    requires DownWire(d, p) && IsNotice(p.id)
    ensures p == IdPacket(p.id, Subject(p))
  {
    IdPacketSubject(CLIENT_ASSIGN_ID, d);
  }

  lemma RosterGrows(v: View, d: Id, p: Packet, x: Id)
    requires DownWire(d, p)
    ensures multiset(Handle(v, p).roster)[x] <= multiset(v.roster)[x] + Adds([p], x)
  {
    if IsNotice(p.id) {
      NoticeIs(d, p);
      AddedCounts(v, Subject(p), x);
      RemovedCounts(v, Subject(p), x);
    } else {
      OthersChangeNoRoster(v, p);
    }
  }

  lemma {:induction false} NoDupFromCounts(ids: seq<Id>)
    requires forall x :: multiset(ids)[x] <= 1
    ensures NoDup(ids)
  {
    if ids != [] {
      var rest, last := ids[..|ids| - 1], ids[|ids| - 1];
      assert ids == rest + [last];
      assert multiset(ids) == multiset(rest) + multiset{last};
      forall x
        ensures multiset(rest)[x] <= 1
      {
        assert multiset(ids)[x] <= 1;
      }
      NoDupFromCounts(rest);
      assert multiset(ids)[last] <= 1;
      NoDupConcat(rest, [last]);
    }
  }

  /** Distinct ids in a range are no more than the range holds. */
  lemma {:induction false} Pigeonhole(ids: seq<Id>, lo: nat, hi: nat)
    requires NoDup(ids) && lo <= hi && forall x :: x in ids ==> lo <= x < hi
    ensures |ids| <= hi - lo
    decreases hi
  {
    if ids != [] {
      assert ids[0] in ids;
      if x: Id :| x in ids && x == hi - 1 {
        var k :| 0 <= k < |ids| && ids[k] == x;
        DropAt(ids, x, k);
        DropNoDup(ids, {x});
        Pigeonhole(Drop(ids, {x}), lo, hi - 1);
      } else {
        Pigeonhole(ids, lo, hi - 1);
      }
    }
  }

  lemma AtMostOneTwice(ids: seq<Id>, d: Id, lo: nat, hi: nat)
    requires lo <= hi && (forall x :: x in ids ==> lo <= x < hi)
    requires forall x :: multiset(ids)[x] <= if x == d then 2 else 1
    ensures |ids| <= hi - lo + 1
  {
    var rest := RemoveFirst(ids, d);
    RemoveFirstCounts(ids, d);
    forall x
      ensures multiset(rest)[x] <= 1
    {
      assert multiset(ids)[x] <= if x == d then 2 else 1;
    }
    RemoveFirstMembers(ids, d);
    NoDupFromCounts(rest);
    Pigeonhole(rest, lo, hi);
    assert |multiset(rest)| == |rest| && |multiset(ids)| == |ids|;
  }

  lemma CountSnoc(rest: seq<Id>, last: Id, y: Id)
    ensures multiset(rest + [last])[y] == multiset(rest)[y] + One(y == last)
  {
    assert multiset(rest + [last]) == multiset(rest) + multiset{last};
  }

  lemma {:induction false} DropCounts(ids: seq<Id>, x: Id, y: Id)
    ensures |Drop<Id>(ids, {x})| == |ids| - multiset(ids)[x]
    ensures multiset(Drop<Id>(ids, {x}))[y] == if y == x then 0 else multiset(ids)[y]
  {
    if ids != [] {
      var rest, last := ids[..|ids| - 1], ids[|ids| - 1];
      DropCounts(rest, x, y);
      assert ids == rest + [last];
      CountSnoc(rest, last, x);
      CountSnoc(rest, last, y);
      CountSnoc(Drop<Id>(rest, {x}), last, y);
    }
  }

  lemma {:induction false} StillAtMostTwice(ids: seq<Id>, x: Id)
    requires forall y: Id :: multiset(ids)[y] <= 2
    ensures forall y: Id :: multiset(Drop<Id>(ids, {x}))[y] <= 2
  {
    forall y: Id
      ensures multiset(Drop<Id>(ids, {x}))[y] <= 2
    {
      assert multiset(ids)[y] <= 2;
      DropCounts(ids, x, y);
    }
  }

  lemma {:induction false} AllAtMostTwice(ids: seq<Id>, lo: nat, hi: nat)
    requires lo <= hi && (forall x :: x in ids ==> lo <= x < hi)
    requires forall x: Id :: multiset(ids)[x] <= 2
    ensures |ids| <= 2 * (hi - lo)
    decreases hi
  {
    if ids != [] {
      assert ids[0] in ids;
      if hi - 1 < WORD_BOUND {
        var top: Id := hi - 1;
        DropCounts(ids, top, top);
        StillAtMostTwice(ids, top);
        AllAtMostTwice(Drop<Id>(ids, {top}), lo, hi - 1);
      } else {
        AllAtMostTwice(ids, lo, hi - 1);
      }
    }
  }

  lemma PrefixAdds(ps: seq<Packet>, n: nat, x: Id)
    requires n <= |ps|
    ensures Adds(ps[..n], x) <= Adds(ps, x)
  {
    assert ps == ps[..n] + ps[n..];
    AddsAppend(ps[..n], ps[n..], x);
  }

  lemma RosterIdsInRange(s: Sys, d: Id, n: nat, x: Id)
    requires Reachable(s) && d in s.peers && d in s.hub.down && n <= |s.hub.down[d]|
    requires x in HandleAll(NEWBORN, s.hub.down[d][..n]).roster
    ensures FIRST_ID <= x < s.next
  {
    RosterWasAdded(s.hub.down[d][..n], x);
    TrafficAt(s, d);
    BaseAt(s);
    var p :| p in s.hub.down[d][..n] && p.id == GAME_ADD_CLIENT && Subject(p) == x;
    assert p in s.hub.down[d];
    RegisteredIsPeer(s, x);
  }

  lemma RegisteredIsPeer(s: Sys, x: Id)
    requires Reachable(s) && s.done <= |s.inLog| && Enrolled(s, x) >= 1
    ensures x in s.peers
  {
    BaseAt(s);
    if x !in s.peers {
      NoRegisters(s.inLog[..s.done], x);
    }
  }

  /** Whatever part of its channel a client that is not spoiled has handled, `connections` holds fewer
      entries than there are 32-bit words. */
  lemma RosterIsShort(s: Sys, d: Id, n: nat)
    requires Reachable(s) && d in s.peers && !s.peers[d].spoiled && d in s.hub.down && n <= |s.hub.down[d]|
    ensures |HandleAll(NEWBORN, s.hub.down[d][..n]).roster| <= s.next - FIRST_ID + 1 < WORD_BOUND - 1
  {
    var ps := s.hub.down[d];
    var roster := HandleAll(NEWBORN, ps[..n]).roster;
    TrafficAt(s, d);
    BaseAt(s);
    assert forall p :: p in ps[..n] ==> p in ps;
    forall x
      ensures multiset(roster)[x] <= if x == d then 2 else 1
    {
      ToldOnce(s, d, x);
      PrefixAdds(ps, n, x);
      RosterCounts(d, ps[..n], x);
    }
    forall x | x in roster
      ensures FIRST_ID <= x < s.next
    {
      RosterIdsInRange(s, d, n, x);
    }
    AtMostOneTwice(roster, d, FIRST_ID, s.next);
  }

  /** And any other client at most twice as many as there have been connections. */
  lemma RosterIsBounded(s: Sys, d: Id, n: nat)
    requires Reachable(s) && d in s.peers && d in s.hub.down && n <= |s.hub.down[d]|
    ensures |HandleAll(NEWBORN, s.hub.down[d][..n]).roster| <= 2 * (s.next - FIRST_ID)
  {
    var ps := s.hub.down[d];
    var roster: seq<Id> := HandleAll(NEWBORN, ps[..n]).roster;
    TrafficAt(s, d);
    BaseAt(s);
    assert forall p :: p in ps[..n] ==> p in ps;
    forall x: Id
      ensures multiset(roster)[x] <= 2
    {
      ToldTwice(s, d, x);
      PrefixAdds(ps, n, x);
      RosterCounts(d, ps[..n], x);
    }
    forall x | x in roster
      ensures FIRST_ID <= x < s.next
    {
      RosterIdsInRange(s, d, n, x);
    }
    AllAtMostTwice(roster, FIRST_ID, s.next);
  }
}
