/** What one client's game packets look like when they come out at another client. */
module RelayOrder {
  import opened Packets
  import opened Hubs
  import opened Relay
  import opened RelayTokens
  import opened RelayTraffic

  /** The game packets of sender `c` among `ps`, in order. */
  function GamesOf(ps: seq<Packet>, c: Id): seq<Packet> {
    if ps == [] then []
    else
      var p := ps[|ps| - 1];
      GamesOf(ps[..|ps| - 1], c) + if IsGame(p.id) && Subject(p) == c then [p] else []
  }

  /** The game packets that came in from connection `c`. */
  function InGames(es: seq<Entry>, c: Id): seq<Packet> {
    if es == [] then []
    else
      var e := es[|es| - 1];
      InGames(es[..|es| - 1], c) + if IsGame(e.packet.id) && e.from == c then [e.packet] else []
  }

  lemma {:induction false} GamesOfAppend(ps: seq<Packet>, qs: seq<Packet>, c: Id)
    ensures GamesOf(ps + qs, c) == GamesOf(ps, c) + GamesOf(qs, c)
  {
    if qs == [] {
      assert ps + qs == ps;
    } else {
      assert (ps + qs)[..|ps + qs| - 1] == ps + qs[..|qs| - 1];
      GamesOfAppend(ps, qs[..|qs| - 1], c);
    }
  }

  lemma {:induction false} InGamesAppend(es: seq<Entry>, fs: seq<Entry>, c: Id)
    ensures InGames(es + fs, c) == InGames(es, c) + InGames(fs, c)
  {
    if fs == [] {
      assert es + fs == es;
    } else {
      assert (es + fs)[..|es + fs| - 1] == es + fs[..|fs| - 1];
      InGamesAppend(es, fs[..|fs| - 1], c);
    }
  }

  lemma {:induction false} NoGames(ps: seq<Packet>, c: Id)
    requires forall p :: p in ps ==> !IsGame(p.id) || Subject(p) != c
    ensures GamesOf(ps, c) == []
  {
    if ps != [] {
      NoGames(ps[..|ps| - 1], c);
    }
  }

  lemma {:induction false} NoInGames(es: seq<Entry>, c: Id)
    requires forall k :: 0 <= k < |es| ==> es[k].from != c
    ensures InGames(es, c) == []
  {
    if es != [] {
      NoInGames(es[..|es| - 1], c);
    }
  }

  // ---------- the invariant ----------

  /** The server has read exactly the first game packets that `c` sent. */
  ghost predicate ReadInOrder(s: Sys, c: Id)
    requires c in s.peers && s.peers[c].taken <= |s.peers[c].up|
  {
    InGames(s.inLog, c) == GamesOf(s.peers[c].up[..s.peers[c].taken], c)
  }

  /** What came of the entries in `due` is all of them while the receiver is open, else the first ones. */
  ghost predicate Served(down: seq<Packet>, due: seq<Entry>, c: Id, open: bool) {
    GamesOf(down, c) <= InGames(due, c) && (open ==> GamesOf(down, c) == InGames(due, c))
  }

  /** `d` has been sent what `c`'s entries since the birth of `d` asked for. */
  ghost predicate Relayed(s: Sys, d: Id, c: Id)
    requires d in s.peers && d in s.hub.down && s.done <= |s.inLog|
  {
    && s.peers[d].born <= s.done
    && (d != c ==> Served(s.hub.down[d], s.inLog[s.peers[d].born..s.done], c, d in s.hub.open))
  }

  ghost predicate Ordered(s: Sys) {
    && Traffic(s)
    && (forall c :: c in s.peers ==> TokenOk(s, c) && ReadInOrder(s, c))
    && (forall d, c :: d in s.peers ==> Relayed(s, d, c))
  }

  // ---------- preservation ----------

  lemma {:induction false} RelayedGames(h: Hub, e: Entry, d: Id, c: Id)
    requires IsGame(e.packet.id) && Subject(e.packet) == e.from && d in h.open && d != e.from
    ensures GamesOf(Delta(h, e.from, e.packet, d), c) == if e.from == c then [e.packet] else []
  {
    var notices := IdPackets(GAME_REMOVE_CLIENT, h.garbage);
    NoticesAreNoGames(h.garbage);
    NoGames(notices, c);
    GamesOfAppend(notices, [e.packet], c);
    assert [e.packet][..0] == [];
  }

  lemma {:induction false} OtherDeltaGames(h: Hub, e: Entry, d: Id, c: Id)
    requires !IsGame(e.packet.id) || d !in h.open || d == e.from
    ensures GamesOf(Delta(h, e.from, e.packet, d), c) == []
  {
    var delta := Delta(h, e.from, e.packet, d);
    forall q | q in delta
      ensures !IsGame(q.id)
    {
      DeltaMembers(h, e.from, e.packet, d, q);
      IdPacketSubject(CLIENT_ASSIGN_ID, e.from);
    }
    NoGames(delta, c);
  }

  lemma {:induction false} DeltaGames(s: Sys, d: Id, c: Id)
    requires s.done < |s.inLog| && Enabled(s, Process) && Traffic(s) && d in s.peers && d != c
    ensures var e := s.inLog[s.done];
            GamesOf(Delta(s.hub, e.from, e.packet, d), c) ==
            if d in s.hub.open && IsGame(e.packet.id) && e.from == c then [e.packet] else []
  {
    var e := s.inLog[s.done];
    assert e in s.inLog && InWire(e, Enrolled(s, e.from) >= 1);
    if IsGame(e.packet.id) && d in s.hub.open && d != e.from {
      SentByShape(e.from, e.packet);
      RelayedGames(s.hub, e, d, c);
    } else {
      OtherDeltaGames(s.hub, e, d, c);
    }
  }

  lemma {:induction false} NoticesAreNoGames(ids: seq<Id>)
    ensures forall q :: q in IdPackets(GAME_REMOVE_CLIENT, ids) ==> !IsGame(q.id)
  {
    forall q | q in IdPackets(GAME_REMOVE_CLIENT, ids)
      ensures !IsGame(q.id)
    {
      var k :| 0 <= k < |ids| && IdPackets(GAME_REMOVE_CLIENT, ids)[k] == q;
      IdPacketSubject(GAME_REMOVE_CLIENT, ids[k]);
    }
  }

  lemma {:induction false} ServedMore(down: seq<Packet>, delta: seq<Packet>, due: seq<Entry>, e: Entry, c: Id,
                                      open: bool)
    requires Served(down, due, c, open)
    requires GamesOf(delta, c) == if open && IsGame(e.packet.id) && e.from == c then [e.packet] else []
    ensures Served(down + delta, due + [e], c, open)
  {
    GamesOfAppend(down, delta, c);
    InGamesAppend(due, [e], c);
    assert [e][..0] == [];
  }

  /** The facts about Process that the relay order rests on. */
  lemma ProcessAt(s: Sys, d: Id)
    requires Tokens(s) && Enabled(s, Process) && d in s.peers
    ensures var t := Next(s, Process);
            var e := s.inLog[s.done];
            && d in t.peers && d in t.hub.down && t.peers[d].born == s.peers[d].born && t.hub.open == s.hub.open
            && t.inLog == s.inLog && t.done == s.done + 1
            && t.hub.down[d] == s.hub.down[d] + Delta(s.hub, e.from, e.packet, d)
  {
    ProcessDelta(s, d);
    ProcessEffect(s);
  }

  lemma {:induction false} RelayedGrows(s: Sys, t: Sys, d: Id, c: Id, delta: seq<Packet>)
    requires d in s.peers && d in s.hub.down && s.done < |s.inLog| && Relayed(s, d, c)
    requires d in t.peers && d in t.hub.down && t.peers[d].born == s.peers[d].born && t.hub.open == s.hub.open
    requires t.inLog == s.inLog && t.done == s.done + 1 && t.hub.down[d] == s.hub.down[d] + delta
    requires var e := s.inLog[s.done];
             d != c ==>
               GamesOf(delta, c) == if d in s.hub.open && IsGame(e.packet.id) && e.from == c then [e.packet] else []
    ensures Relayed(t, d, c)
  {
    var e, born := s.inLog[s.done], s.peers[d].born;
    assert s.inLog[born..s.done + 1] == s.inLog[born..s.done] + [e];
    if d != c {
      ServedMore(s.hub.down[d], delta, s.inLog[born..s.done], e, c, d in s.hub.open);
    }
  }

  lemma RelayedProcess(s: Sys, d: Id, c: Id)
    requires Traffic(s) && Enabled(s, Process) && d in s.peers && Relayed(s, d, c)
    ensures var t := Next(s, Process); d in t.peers && d in t.hub.down && t.done <= |t.inLog| && Relayed(t, d, c)
  {
    var e := s.inLog[s.done];
    ProcessAt(s, d);
    if d != c {
      DeltaGames(s, d, c);
    }
    RelayedGrows(s, Next(s, Process), d, c, Delta(s.hub, e.from, e.packet, d));
  }

  lemma ServedAccepted(down: seq<Packet>, due: seq<Entry>, c: Id, open: bool)
    requires Served(down, due, c, open)
    ensures Served(down + [NewPacket(CLIENT_ACCEPTED)], due, c, open)
  {
    GamesOfAppend(down, [NewPacket(CLIENT_ACCEPTED)], c);
    NoGames([NewPacket(CLIENT_ACCEPTED)], c);
  }

  lemma RelayedKept(s: Sys, t: Sys, d: Id, c: Id)
    requires d in s.peers && d in s.hub.down && s.done <= |s.inLog| && Relayed(s, d, c)
    requires d in t.peers && d in t.hub.down && t.peers[d].born == s.peers[d].born && t.done == s.done
    requires s.inLog <= t.inLog && (d in t.hub.open ==> d in s.hub.open)
    requires t.hub.down[d] == s.hub.down[d] || t.hub.down[d] == s.hub.down[d] + [NewPacket(CLIENT_ACCEPTED)]
    ensures Relayed(t, d, c)
  {
    assert t.inLog[s.peers[d].born..s.done] == s.inLog[s.peers[d].born..s.done];
    if d != c {
      ServedAccepted(s.hub.down[d], s.inLog[s.peers[d].born..s.done], c, d in s.hub.open);
    }
  }

  lemma RelayedOther(s: Sys, st: Step, d: Id, c: Id)
    requires Base(s) && Enabled(s, st) && st != Process && d in s.peers && Relayed(s, d, c)
    ensures d in Next(s, st).peers && d in Next(s, st).hub.down && Next(s, st).done <= |Next(s, st).inLog|
    ensures Relayed(Next(s, st), d, c)
  {
    LogKept(s, st, d);
    RelayedKept(s, Next(s, st), d, c);
  }

  lemma LogKept(s: Sys, st: Step, d: Id)
    requires Base(s) && Enabled(s, st) && st != Process && d in s.peers
    ensures var t := Next(s, st);
            && d in t.peers && d in t.hub.down && t.peers[d].born == s.peers[d].born && t.done == s.done
            && s.inLog <= t.inLog && (d in t.hub.open ==> d in s.hub.open)
            && t.hub.down[d] ==
               (if st == Validate(d) then s.hub.down[d] + [NewPacket(CLIENT_ACCEPTED)] else s.hub.down[d])
  {
  }

  lemma RelayedNewborn(s: Sys, c: Id)
    requires Ordered(s) && Enabled(s, Accept)
    ensures Relayed(Next(s, Accept), s.next, c)
  {
    assert s.inLog[s.done..s.done] == [];
  }

  lemma {:induction false} ReadOne(up: seq<Packet>, taken: nat, log: seq<Entry>, c: Id, q: Packet)
    requires taken < |up| && InGames(log, c) == GamesOf(up[..taken], c)
    requires IsGame(q.id) == IsGame(up[taken].id)
    requires IsGame(q.id) ==> q == up[taken] && Subject(q) == c
    ensures InGames(log + [Entry(c, q)], c) == GamesOf(up[..taken + 1], c)
  {
    assert up[..taken + 1] == up[..taken] + [up[taken]];
    GamesOfAppend(up[..taken], [up[taken]], c);
    InGamesAppend(log, [Entry(c, q)], c);
    assert [up[taken]][..0] == [] && [Entry(c, q)][..0] == [];
  }

  lemma TakenIsGenuine(s: Sys, c: Id, q: Packet)
    requires Traffic(s) && Enabled(s, Take(c, q))
    ensures var p := s.peers[c].up[s.peers[c].taken];
            IsGame(q.id) == IsGame(p.id) && (IsGame(q.id) ==> q == p && Subject(q) == c)
  {
    var p := s.peers[c].up[s.peers[c].taken];
    assert p in s.peers[c].up && UpWire(c, Enrolled(s, c) >= 1, p) by {
      assert TrafficOk(s, c);
    }
    TakenIsWire(c, Enrolled(s, c) >= 1, p, q);
    if IsGame(p.id) {
      SentByShape(c, p);
    }
  }

  lemma ReadTakes(s: Sys, c: Id, q: Packet)
    requires Ordered(s) && Enabled(s, Take(c, q)) && Traffic(Next(s, Take(c, q)))
    ensures TokenOk(Next(s, Take(c, q)), c) && ReadInOrder(Next(s, Take(c, q)), c)
  {
    var up, taken := s.peers[c].up, s.peers[c].taken;
    assert ReadInOrder(s, c);
    TakenIsGenuine(s, c, q);
    ReadOne(up, taken, s.inLog, c, q);
    assert TokenOk(Next(s, Take(c, q)), c);
  }

  lemma InboundKept(s: Sys, st: Step, c: Id)
    requires Base(s) && Enabled(s, st) && c in s.peers && !(st.Take? && st.c == c)
    ensures var t := Next(s, st);
            && c in t.peers && t.peers[c].taken == s.peers[c].taken
            && s.peers[c].up <= t.peers[c].up
            && t.inLog == (if st.Take? then s.inLog + [Entry(st.c, st.packet)] else s.inLog)
  {
  }

  lemma {:induction false} ReadKept(s: Sys, t: Sys, c: Id, more: seq<Entry>)
    requires c in s.peers && s.peers[c].taken <= |s.peers[c].up| && ReadInOrder(s, c)
    requires c in t.peers && t.peers[c].taken == s.peers[c].taken && s.peers[c].up <= t.peers[c].up
    requires t.inLog == s.inLog + more && InGames(more, c) == []
    ensures ReadInOrder(t, c)
  {
    assert t.peers[c].up[..s.peers[c].taken] == s.peers[c].up[..s.peers[c].taken];
    InGamesAppend(s.inLog, more, c);
  }

  lemma ReadOther(s: Sys, st: Step, c: Id)
    requires Base(s) && Enabled(s, st) && c in s.peers && !(st.Take? && st.c == c)
    requires s.peers[c].taken <= |s.peers[c].up| && ReadInOrder(s, c)
    ensures var t := Next(s, st); c in t.peers && t.peers[c].taken <= |t.peers[c].up| && ReadInOrder(t, c)
  {
    InboundKept(s, st, c);
    assert s.inLog + [] == s.inLog;
    if st.Take? {
      NoInGames([Entry(st.c, st.packet)], c);
      ReadKept(s, Next(s, st), c, [Entry(st.c, st.packet)]);
    } else {
      ReadKept(s, Next(s, st), c, []);
    }
  }

  lemma OrderedStep(s: Sys, st: Step)
    requires Ordered(s) && Enabled(s, st)
    ensures Ordered(Next(s, st))
  {
    var t := Next(s, st);
    TrafficStep(s, st);
    forall c | c in t.peers
      ensures TokenOk(t, c) && ReadInOrder(t, c)
    {
      assert TokenOk(t, c);
      if c !in s.peers {
        NoInGames(s.inLog, c);
      } else if st.Take? && st.c == c {
        ReadTakes(s, c, st.packet);
      } else {
        assert TokenOk(s, c) && ReadInOrder(s, c);
        ReadOther(s, st, c);
      }
    }
    forall d, c | d in t.peers
      ensures Relayed(t, d, c)
    {
      if d !in s.peers {
        RelayedNewborn(s, c);
      } else if st == Process {
        assert Relayed(s, d, c);
        RelayedProcess(s, d, c);
      } else {
        assert Relayed(s, d, c);
        RelayedOther(s, st, d, c);
      }
    }
  }
}
