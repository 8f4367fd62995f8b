/** Exactly when a client knows the sender of a relayed packet, whatever has become of its roster. */
module RelayKnowledge {
  import opened Words
  import opened Lists
  import opened Packets
  import opened Hubs
  import opened ClientViews
  import opened Relay
  import opened RelayTokens
  import opened RelayTraffic
  import opened RelayCausality
  import opened RelayRoster
  import opened RelayTheorems
  import opened RelayAnnouncements

  function Removes(ps: seq<Packet>, x: Id): nat {
    multiset(ps)[IdPacket(GAME_REMOVE_CLIENT, x)]
  }

  /** No id is announced again after its removal. */
  ghost predicate NoReturn(ps: seq<Packet>, x: Id) {
    ps != [] ==>
      && NoReturn(ps[..|ps| - 1], x)
      && (ps[|ps| - 1] == IdPacket(GAME_ADD_CLIENT, x) ==> Removes(ps[..|ps| - 1], x) == 0)
  }

  lemma RemovesAppend(ps: seq<Packet>, qs: seq<Packet>, x: Id)
    ensures Removes(ps + qs, x) == Removes(ps, x) + Removes(qs, x)
  {
    assert multiset(ps + qs) == multiset(ps) + multiset(qs);
  }

  lemma {:induction false} NoReturnAppend(ps: seq<Packet>, qs: seq<Packet>, x: Id)
    requires NoReturn(ps, x) && Adds(qs, x) == 0
    ensures NoReturn(ps + qs, x)
  {
    if qs == [] {
      assert ps + qs == ps;
    } else {
      var rest, last := qs[..|qs| - 1], qs[|qs| - 1];
      assert qs == rest + [last] && (ps + qs)[..|ps + qs| - 1] == ps + rest;
      NotAdded(qs, x);
      NotAdded(rest, x);
      assert last in qs;
      NoReturnAppend(ps, rest, x);
    }
  }

  lemma {:induction false} NeverRemoved(ps: seq<Packet>, x: Id)
    requires Removes(ps, x) == 0
    ensures NoReturn(ps, x)
  {
    if ps != [] {
      var rest, last := ps[..|ps| - 1], ps[|ps| - 1];
      assert ps == rest + [last];
      RemovesAppend(rest, [last], x);
      NeverRemoved(rest, x);
    }
  }

  // ---------- how often a roster holds an id ----------

  lemma OnePacket(p: Packet, x: Id)
    ensures Adds([p], x) == One(p == IdPacket(GAME_ADD_CLIENT, x))
    ensures Removes([p], x) == One(p == IdPacket(GAME_REMOVE_CLIENT, x))
  {
  }

  /** What one packet does to the number of times `x` is on the roster. */
  lemma CountStep(v: View, d: Id, p: Packet, x: Id)
    requires DownWire(d, p) && v.id != x
    ensures var n, m := multiset(v.roster)[x], multiset(Handle(v, p).roster)[x];
            if p == IdPacket(GAME_ADD_CLIENT, x) then m == n + 1
            else if p == IdPacket(GAME_REMOVE_CLIENT, x) then m == if n > 0 then n - 1 else 0
            else m == n
  {
    if IsNotice(p.id) {
      NoticeIs(d, p);
      NoticeCounts(v, p.id, Subject(p), x);
      OneName(p.id, Subject(p), x);
    } else {
      OthersChangeNoRoster(v, p);
      IdPacketSubject(GAME_ADD_CLIENT, x);
      IdPacketSubject(GAME_REMOVE_CLIENT, x);
    }
  }

  lemma OneName(t: Word, y: Id, x: Id)
    requires IsNotice(t)
    ensures IdPacket(t, y) == IdPacket(GAME_ADD_CLIENT, x) <==> t == GAME_ADD_CLIENT && y == x
    ensures IdPacket(t, y) == IdPacket(GAME_REMOVE_CLIENT, x) <==> t == GAME_REMOVE_CLIENT && y == x
  {
    IdPacketSubject(t, y);
    IdPacketSubject(GAME_ADD_CLIENT, x);
    IdPacketSubject(GAME_REMOVE_CLIENT, x);
  }

  lemma NoticeCounts(v: View, t: Word, y: Id, x: Id)
    requires IsNotice(t) && v.id != x
    ensures var n, m := multiset(v.roster)[x], multiset(Handle(v, IdPacket(t, y)).roster)[x];
            if y != x then m == n
            else if t == GAME_ADD_CLIENT then m == n + 1
            else m == if n > 0 then n - 1 else 0
  {
    if t == GAME_ADD_CLIENT {
      HandleAdded(v, y);
      assert multiset(v.roster + [y]) == multiset(v.roster) + multiset{y};
    } else {
      HandleRemoved(v, y);
      RemoveFirstCounts(v.roster, y);
    }
  }

  /** Of what has been announced the roster holds what has not been removed. */
  lemma {:induction false} RosterCount(d: Id, ps: seq<Packet>, x: Id)
    requires FIRST_ID <= d && FIRST_ID <= x && x != d && NoReturn(ps, x) && forall p :: p in ps ==> DownWire(d, p)
    ensures multiset(HandleAll(NEWBORN, ps).roster)[x]
            == if Removes(ps, x) <= Adds(ps, x) then Adds(ps, x) - Removes(ps, x) else 0
  {
    if ps != [] {
      var rest, last := ps[..|ps| - 1], ps[|ps| - 1];
      assert ps == rest + [last];
      RosterCount(d, rest, x);
      AddsAppend(rest, [last], x);
      RemovesAppend(rest, [last], x);
      OnePacket(last, x);
      OneName(GAME_ADD_CLIENT, x, x);
      ViewHonest(d, rest);
      CountStep(HandleAll(NEWBORN, rest), d, last, x);
    }
  }

  // ---------- what every run keeps ----------

  /** Nobody returns on the channel of `d`, and whoever was announced and has left has been removed. */
  ghost predicate Current(s: Sys, d: Id, c: Id) {
    d in s.peers && d in s.hub.down && c != d ==>
      && NoReturn(s.hub.down[d], c)
      && (d in s.hub.open && Adds(s.hub.down[d], c) > 0 ==>
            c in s.hub.clients || c in s.hub.garbage || Removes(s.hub.down[d], c) > 0)
  }

  lemma StillThere(s: Sys, t: Sys, d: Id, c: Id)
    requires Reachable(s) && Enabled(s, Process) && t == Next(s, Process) && Introducing(s, t, d, c)
    ensures c in t.hub.clients || c in t.hub.garbage
  {
    ReachableInv(s);
    ListedAfterProcess(s, c);
    ProcessEffect(s);
    var e := s.inLog[s.done];
    if e.from == c {
      assert (s.hub.clients + [c])[|s.hub.clients|] == c;
    }
  }

  lemma MayNotBeRemoved(s: Sys, d: Id, c: Id)
    requires Reachable(s) && d in s.peers && d in s.hub.down && (c in s.hub.clients || c in s.hub.garbage)
    ensures Removes(s.hub.down[d], c) == 0
  {
    PairAt(s, d, c);
  }

  lemma {:induction false} NoReturnProcess(s: Sys, t: Sys, d: Id, c: Id)
    requires Reachable(s) && Enabled(s, Process) && t == Next(s, Process) && d in s.peers && d in s.hub.down && c != d
    requires NoReturn(s.hub.down[d], c)
    ensures d in t.peers && d in t.hub.down && NoReturn(t.hub.down[d], c)
  {
    var e := s.inLog[s.done];
    ProcessedAt(s, d);
    ToldOf(s, d, c);
    if Introducing(s, t, d, c) {
      ReachableNext(s, Process);
      StillThere(s, t, d, c);
      MayNotBeRemoved(t, d, c);
      NeverRemoved(t.hub.down[d], c);
    } else {
      NoReturnAppend(s.hub.down[d], Delta(s.hub, e.from, e.packet, d), c);
    }
  }

  lemma RemovedIfGone(s: Sys, t: Sys, d: Id, c: Id)
    requires Reachable(s) && Enabled(s, Process) && t == Next(s, Process) && d in s.peers && d in s.hub.down && c != d
    requires d in s.hub.open && Current(s, d, c) && d in t.hub.down && Adds(t.hub.down[d], c) > 0
    ensures c in t.hub.clients || c in t.hub.garbage || Removes(t.hub.down[d], c) > 0
  {
    var e := s.inLog[s.done];
    ReachableInv(s);
    ProcessedAt(s, d);
    ToldByProcess(s, t, d, c);
    RemovesAppend(s.hub.down[d], Delta(s.hub, e.from, e.packet, d), c);
    if Introducing(s, t, d, c) {
      StillThere(s, t, d, c);
    } else if c in s.hub.clients {
      ListedAfterProcess(s, c);
    } else if c in s.hub.garbage {
      RemovalsInDelta(s.hub, e.from, e.packet, d, c);
    }
  }

  lemma CurrentProcess(s: Sys, t: Sys, d: Id, c: Id)
    requires Reachable(s) && Enabled(s, Process) && t == Next(s, Process) && d in s.peers && Current(s, d, c)
    ensures Current(t, d, c)
  {
    TrafficAt(s, d);
    if c != d {
      NoReturnProcess(s, t, d, c);
      ProcessedAt(s, d);
      if d in t.hub.open && Adds(t.hub.down[d], c) > 0 {
        RemovedIfGone(s, t, d, c);
      }
    }
  }

  lemma CurrentOther(s: Sys, st: Step, d: Id, c: Id)
    requires Reachable(s) && Enabled(s, st) && st != Process && d in s.peers && Current(s, d, c)
    ensures Current(Next(s, st), d, c)
  {
    BaseAt(s);
    HubKept(s, st, d);
    AcceptedTellsNothing(s.hub.down[d], c);
    var more := if st == Validate(d) then [NewPacket(CLIENT_ACCEPTED)] else [];
    NoAdds(NewPacket(CLIENT_ACCEPTED), c);
    RemovesAppend(s.hub.down[d], more, c);
    if c != d {
      NoReturnAppend(s.hub.down[d], more, c);
    }
  }

  lemma CurrentNewborn(s: Sys, t: Sys, d: Id, c: Id)
    requires Reachable(s) && Follows(s, t) && d !in s.peers
    ensures Current(t, d, c)
  {
    if d in t.peers {
      BaseAt(s);
      NewcomerHasNothing(s, t, d);
      NothingIsCurrent(t, d, c);
    }
  }

  lemma NothingIsCurrent(t: Sys, d: Id, c: Id)
    requires d in t.hub.down && t.hub.down[d] == []
    ensures Current(t, d, c)
  {
  }

  /** The step keeps it. */
  ghost predicate KeepsCurrent(s: Sys, t: Sys, d: Id, c: Id) {
    Current(s, d, c) ==> Current(t, d, c)
  }

  lemma CurrentStep(s: Sys, t: Sys, d: Id, c: Id)
    requires Reachable(s) && Follows(s, t)
    ensures KeepsCurrent(s, t, d, c)
  {
    if Current(s, d, c) {
      if d !in s.peers {
        CurrentNewborn(s, t, d, c);
      } else {
        var st :| Enabled(s, st) && t == Next(s, st);
        if st == Process {
          CurrentProcess(s, t, d, c);
        } else {
          CurrentOther(s, st, d, c);
        }
      }
    }
  }

  lemma {:induction false} AlwaysKeepsCurrent(run: seq<Sys>, d: Id, c: Id)
    requires IsRun(run)
    ensures forall k {:trigger run[k]} :: 0 < k < |run| ==> KeepsCurrent(run[k - 1], run[k], d, c)
  {
    forall k {:trigger run[k]} | 0 < k < |run|
      ensures KeepsCurrent(run[k - 1], run[k], d, c)
    {
      FollowsAt(run, k - 1);
      CurrentStep(run[k - 1], run[k], d, c);
    }
  }

  lemma {:induction false} CurrentBy(run: seq<Sys>, k: nat, d: Id, c: Id)
    requires k < |run| && Current(run[0], d, c)
    requires forall i {:trigger run[i]} :: 0 < i < |run| ==> KeepsCurrent(run[i - 1], run[i], d, c)
    ensures Current(run[k], d, c)
    decreases k
  {
    if k > 0 {
      CurrentBy(run, k - 1, d, c);
      assert KeepsCurrent(run[k - 1], run[k], d, c);
    }
  }

  lemma CurrentAt(s: Sys, d: Id, c: Id)
    requires Reachable(s)
    ensures Current(s, d, c)
  {
    var run :| IsRun(run) && run[|run| - 1] == s;
    NobodyAtFirst(run, d);
    AlwaysKeepsCurrent(run, d, c);
    CurrentBy(run, |run| - 1, d, c);
  }

  // ---------- who knows the sender ----------

  lemma {:induction false} NoticesRemove(ids: seq<Id>, x: Id)
    requires NoDup(ids)
    ensures Removes(IdPackets(GAME_REMOVE_CLIENT, ids), x) == One(x in ids)
  {
    NoticesOnce(GAME_REMOVE_CLIENT, ids, x);
  }

  /** What the notices that are due leave of the announcements of `c`. */
  lemma {:induction false} DueRemovals(s: Sys, d: Id, c: Id)
    requires Reachable(s) && d in s.peers && d in s.hub.open && c != d && EverListed(s, c)
    ensures d in s.hub.down
    ensures var before := s.hub.down[d] + IdPackets(GAME_REMOVE_CLIENT, s.hub.garbage);
            && NoReturn(before, c) && Adds(before, c) == Adds(s.hub.down[d], c)
            && (c in s.hub.clients ==> Removes(before, c) == 0)
            && (c !in s.hub.clients && Adds(before, c) > 0 ==> Removes(before, c) == 1)
  {
    BaseAt(s);
    PairAt(s, d, c);
    CurrentAt(s, d, c);
    NoAddsInRemovals(s.hub.garbage, c);
    NoReturnAppend(s.hub.down[d], IdPackets(GAME_REMOVE_CLIENT, s.hub.garbage), c);
    AddsAppend(s.hub.down[d], IdPackets(GAME_REMOVE_CLIENT, s.hub.garbage), c);
    NoticesRemove(s.hub.garbage, c);
    RemovesAppend(s.hub.down[d], IdPackets(GAME_REMOVE_CLIENT, s.hub.garbage), c);
  }

  lemma BeforeIsWire(s: Sys, d: Id)
    requires Reachable(s) && d in s.peers && d in s.hub.open
    ensures d in s.hub.down && FIRST_ID <= d
    ensures forall p :: p in s.hub.down[d] + IdPackets(GAME_REMOVE_CLIENT, s.hub.garbage) ==> DownWire(d, p)
  {
    TrafficAt(s, d);
    BaseAt(s);
    forall p | p in IdPackets(GAME_REMOVE_CLIENT, s.hub.garbage)
      ensures DownWire(d, p)
    {
      IdPacketsMember(GAME_REMOVE_CLIENT, s.hub.garbage, p);
    }
  }

  lemma InRoster(ids: seq<Id>, x: Id)
    ensures x in ids <==> multiset(ids)[x] > 0
  {
  }

  lemma EntryIsWire(s: Sys, e: Entry)
    requires Reachable(s) && e in s.inLog
    ensures s.done <= |s.inLog| && InWire(e, Enrolled(s, e.from) >= 1) && e.from in s.peers
  {
    ReachableInv(s);
  }

  lemma GameIsEnrolled(e: Entry, enrolled: bool)
    requires InWire(e, enrolled) && IsGame(e.packet.id)
    ensures enrolled
  {
  }

  lemma SenderWasEnrolled(s: Sys)
    requires s.done < |s.inLog| && Reachable(s) && IsGame(s.inLog[s.done].packet.id)
    ensures var c := s.inLog[s.done].from; EverListed(s, c) && FIRST_ID <= c
  {
    var e := s.inLog[s.done];
    EntryIsWire(s, e);
    GameIsEnrolled(e, Enrolled(s, e.from) >= 1);
    BaseAt(s);
  }

  /** Whoever is connected, registered or not, with whatever roster: the client knows the sender of the packet
      the server relays now exactly if it has been introduced to it, and, should the server no longer list the
      sender, twice. */
  lemma {:induction false} KnownExactly(run: seq<Sys>, t: Sys, d: Id)
    requires IsRun(run) && Enabled(run[|run| - 1], Process) && t == Next(run[|run| - 1], Process)
    requires var s := run[|run| - 1];
             IsGame(s.inLog[s.done].packet.id) && d in s.peers && d in s.hub.open && d != s.inLog[s.done].from
    ensures d in t.hub.down && t.hub.down[d] != []
    ensures var s, c, k := run[|run| - 1], run[|run| - 1].inLog[run[|run| - 1].done].from, |t.hub.down[d]| - 1;
            && t.hub.down[d][k] == s.inLog[s.done].packet
            && (c in ViewAt(t, d, k).roster <==>
                Introductions(run, |run| - 1, d, c) >= if c in s.hub.clients then 1 else 2)
  {
    var s := run[|run| - 1];
    var c := s.inLog[s.done].from;
    ReachableAt(run, |run| - 1);
    RelayedIsLast(s, t, d);
    ToldExactly(run, d, c);
    KnownByCount(s, d, c);
  }

  lemma KnownByCount(s: Sys, d: Id, c: Id)
    requires Reachable(s) && Enabled(s, Process) && IsGame(s.inLog[s.done].packet.id)
    requires d in s.peers && d in s.hub.open && c == s.inLog[s.done].from != d
    ensures d in s.hub.down
    ensures c in HandleAll(NEWBORN, s.hub.down[d] + IdPackets(GAME_REMOVE_CLIENT, s.hub.garbage)).roster
            <==> Adds(s.hub.down[d], c) >= if c in s.hub.clients then 1 else 2
  {
    SenderWasEnrolled(s);
    DueRemovals(s, d, c);
    BeforeIsWire(s, d);
    var before := s.hub.down[d] + IdPackets(GAME_REMOVE_CLIENT, s.hub.garbage);
    RosterCount(d, before, c);
    InRoster(HandleAll(NEWBORN, before).roster, c);
  }
}
