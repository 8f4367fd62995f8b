/** Whether a client's roster agrees with the server's list of registered clients. */
module RelayRoster {
  import opened Words
  import opened Lists
  import opened Packets
  import opened Hubs
  import opened ClientViews
  import opened Relay
  import opened RelayTokens
  import opened RelayTraffic
  import opened RelayCausality

  /** The state of client `d` once it has handled everything sent to it so far. */
  function Settled(s: Sys, d: Id): View
    requires d in s.hub.down
  {
    HandleAll(NEWBORN, s.hub.down[d])
  }

  /** Roster agreement: apart from ids whose removal is still to be announced, the roster is the
      server's list without the client itself, same order, no duplicates. */
  ghost predicate Exact(v: View, d: Id, clients: seq<Id>, gone: set<Id>) {
    && v.id == d && NoDup(v.roster)
    && (forall x :: x in v.roster ==> x in clients || x in gone)
    && Drop(v.roster, gone) == Drop(clients, {d})
  }

  /** The roster of a connection that is not registered. */
  ghost predicate Waiting(v: View, clients: seq<Id>, gone: set<Id>) {
    && v.id == 0 && NoDup(v.roster)
    && forall x :: x in v.roster ==> x in clients || x in gone
  }

  /** An entry that occurs twice, or one that no announcement will ever remove. */
  ghost predicate Ghostly(roster: seq<Id>, clients: seq<Id>, gone: set<Id>, x: Id) {
    multiset(roster)[x] >= 2 || (x in roster && x !in clients && x !in gone)
  }

  ghost predicate Haunted(v: View, d: Id, clients: seq<Id>, gone: set<Id>) {
    v.id == d && exists x :: Ghostly(v.roster, clients, gone, x)
  }

  ghost predicate RosterOf(v: View, d: Id, clients: seq<Id>, gone: set<Id>, spoiled: bool) {
    if d !in clients then Waiting(v, clients, gone) && !spoiled
    else if spoiled then Haunted(v, d, clients, gone)
    else Exact(v, d, clients, gone)
  }

  ghost predicate RosterOk(s: Sys, d: Id)
    requires d in s.peers && d in s.hub.down
  {
    d in s.hub.open ==> RosterOf(Settled(s, d), d, s.hub.clients, Elems(s.hub.garbage), s.peers[d].spoiled)
  }

  ghost predicate Rosters(s: Sys) {
    Causality(s) && forall d :: d in s.peers ==> RosterOk(s, d)
  }

  lemma {:induction false} NoDupCounts(s: seq<Id>, x: Id)
    requires NoDup(s)
    ensures multiset(s)[x] <= 1
  {
    if s != [] {
      NoDupCounts(s[..|s| - 1], x);
      assert s == s[..|s| - 1] + [s[|s| - 1]];
    }
  }

  lemma HauntedIsNotExact(v: View, d: Id, clients: seq<Id>, gone: set<Id>)
    requires Haunted(v, d, clients, gone)
    ensures !Exact(v, d, clients, gone)
  {
    var x :| Ghostly(v.roster, clients, gone, x);
    if NoDup(v.roster) {
      NoDupCounts(v.roster, x);
    }
  }

  // ---------- what the server's packets do to a roster ----------

  lemma {:induction false} RemoveFirstCounts(s: seq<Id>, x: Id)
    ensures multiset(RemoveFirst(s, x)) == multiset(s) - multiset{x}
  {
    if s != [] {
      assert s == [s[0]] + s[1..];
      if s[0] != x {
        RemoveFirstCounts(s[1..], x);
      }
    }
  }

  /** The roster after the removal notices for `ids`. */
  function WithoutEach(roster: seq<Id>, ids: seq<Id>): seq<Id> {
    if ids == [] then roster else RemoveFirst(WithoutEach(roster, ids[..|ids| - 1]), ids[|ids| - 1])
  }

  lemma {:induction false} HandleRemoved(v: View, x: Id)
    ensures Handle(v, IdPacket(GAME_REMOVE_CLIENT, x)) ==
            if x == v.id then v.(stopped := true) else v.(roster := RemoveFirst(v.roster, x))
  {
    IdPacketCarries(GAME_REMOVE_CLIENT, x);
  }

  lemma HandleLast(v: View, t: Word, ids: seq<Id>)
    requires ids != []
    ensures var rest, x := ids[..|ids| - 1], ids[|ids| - 1];
            HandleAll(v, IdPackets(t, ids)) == Handle(HandleAll(v, IdPackets(t, rest)), IdPacket(t, x))
  {
    HandleOne(v, IdPackets(t, ids[..|ids| - 1]), IdPacket(t, ids[|ids| - 1]));
  }

  lemma {:induction false} HandleRemovals(v: View, ids: seq<Id>)
    requires v.id !in ids
    ensures HandleAll(v, IdPackets(GAME_REMOVE_CLIENT, ids)) == v.(roster := WithoutEach(v.roster, ids))
  {
    if ids != [] {
      var rest, x := ids[..|ids| - 1], ids[|ids| - 1];
      HandleRemovals(v, rest);
      HandleLast(v, GAME_REMOVE_CLIENT, ids);
      HandleRemoved(HandleAll(v, IdPackets(GAME_REMOVE_CLIENT, rest)), x);
    }
  }

  lemma {:induction false} WithoutEachDrops(roster: seq<Id>, ids: seq<Id>)
    requires NoDup(roster)
    ensures WithoutEach(roster, ids) == Drop(roster, Elems(ids)) && NoDup(WithoutEach(roster, ids))
  {
    if ids == [] {
      DropNothing(roster, Elems(ids));
    } else {
      var rest, x := ids[..|ids| - 1], ids[|ids| - 1];
      WithoutEachDrops(roster, rest);
      RemoveFirstIsDrop(WithoutEach(roster, rest), x);
      DropTwice(roster, Elems(rest), {x});
      DropNoDup(WithoutEach(roster, rest), {x});
      assert ids == rest + [x];
      assert Elems(ids) == Elems(rest) + {x};
    }
  }

  lemma {:induction false} WithoutEachCounts(roster: seq<Id>, ids: seq<Id>)
    ensures multiset(WithoutEach(roster, ids)) == multiset(roster) - multiset(ids)
  {
    if ids != [] {
      var rest, x := ids[..|ids| - 1], ids[|ids| - 1];
      WithoutEachCounts(roster, rest);
      RemoveFirstCounts(WithoutEach(roster, rest), x);
      CountsOneMore(roster, rest, x);
      assert ids == rest + [x];
    }
  }

  lemma CountsOneMore(roster: seq<Id>, rest: seq<Id>, x: Id)
    ensures multiset(roster) - multiset(rest) - multiset{x} == multiset(roster) - multiset(rest + [x])
  {
    assert multiset(rest + [x]) == multiset(rest) + multiset{x};
  }

  lemma HandleAdded(v: View, x: Id)
    ensures Handle(v, IdPacket(GAME_ADD_CLIENT, x)) ==
            if x == v.id then v.(waiting := false) else v.(roster := v.roster + [x])
  {
    IdPacketCarries(GAME_ADD_CLIENT, x);
  }

  /** `w` is `v` with the ids of `ids` added, as far as the roster goes. */
  ghost predicate AddedTo(v: View, ids: seq<Id>, w: View) {
    w.id == v.id && w.roster == v.roster + Drop(ids, {v.id}) && w.stopped == v.stopped
  }

  lemma AddOne(v: View, rest: seq<Id>, x: Id, w: View)
    requires AddedTo(v, rest, w)
    ensures AddedTo(v, rest + [x], Handle(w, IdPacket(GAME_ADD_CLIENT, x)))
  {
    HandleAdded(w, x);
    assert (rest + [x])[..|rest|] == rest;
  }

  lemma {:induction false} HandleAdditions(v: View, ids: seq<Id>)
    ensures AddedTo(v, ids, HandleAll(v, IdPackets(GAME_ADD_CLIENT, ids)))
  {
    if ids == [] {
      assert v.roster + [] == v.roster;
    } else {
      var rest, x := ids[..|ids| - 1], ids[|ids| - 1];
      assert ids == rest + [x];
      HandleAdditions(v, rest);
      HandleLast(v, GAME_ADD_CLIENT, ids);
      AddOne(v, rest, x, HandleAll(v, IdPackets(GAME_ADD_CLIENT, rest)));
    }
  }

  lemma {:induction false} HandleJust(v: View, p: Packet)
    ensures HandleAll(v, [p]) == Handle(v, p)
  {
    HandleOne(v, [], p);
    assert [] + [p] == [p];
  }

  lemma {:induction false} HandleNamed(v: View, c: Id)
    requires v.id == 0 && c != 0
    ensures HandleAll(v, [IdPacket(CLIENT_ASSIGN_ID, c)] + [IdPacket(GAME_ADD_CLIENT, c)])
            == v.(id := c, waiting := false)
  {
    IdPacketCarries(CLIENT_ASSIGN_ID, c);
    IdPacketCarries(GAME_ADD_CLIENT, c);
    HandleJust(v, IdPacket(CLIENT_ASSIGN_ID, c));
    HandleOne(v, [IdPacket(CLIENT_ASSIGN_ID, c)], IdPacket(GAME_ADD_CLIENT, c));
  }

  lemma {:induction false} HandleWelcome(v: View, h: Hub, c: Id)
    requires c in h.open && v.id == 0 && c != 0
    ensures var w := HandleAll(v, Welcome(h, c, c));
            w.id == c && w.roster == v.roster + Drop(Living(h.clients + [c], h.open), {c})
  {
    var named := [IdPacket(CLIENT_ASSIGN_ID, c)] + [IdPacket(GAME_ADD_CLIENT, c)];
    var living := Living(h.clients + [c], h.open);
    HandleNamed(v, c);
    HandleAllAppend(v, named, IdPackets(GAME_ADD_CLIENT, living));
    HandleAdditions(v.(id := c, waiting := false), living);
    WelcomeParts(h, c);
  }

  lemma WelcomeParts(h: Hub, c: Id)
    requires c in h.open
    ensures Welcome(h, c, c) == [IdPacket(CLIENT_ASSIGN_ID, c)] + [IdPacket(GAME_ADD_CLIENT, c)]
                                + IdPackets(GAME_ADD_CLIENT, Living(h.clients + [c], h.open))
  {
  }

  lemma HandleGame(v: View, p: Packet)
    requires IsGame(p.id)
    ensures Handle(v, p) == v
  {
  }

  /** The view after the packets of one server step: removals, then what the packet asks for. */
  lemma {:induction false} HandleRelayDelta(v: View, h: Hub, c: Id, p: Packet, d: Id)
    requires d in h.open && v.id !in h.garbage && IsGame(p.id)
    ensures var w := HandleAll(v, Delta(h, c, p, d)); w.id == v.id && w.roster == WithoutEach(v.roster, h.garbage)
  {
    var notices := IdPackets(GAME_REMOVE_CLIENT, h.garbage);
    HandleRemovals(v, h.garbage);
    if d != c {
      assert Delta(h, c, p, d) == notices + [p];
      HandleOne(v, notices, p);
      HandleGame(HandleAll(v, notices), p);
    } else {
      assert Delta(h, c, p, d) == notices + [] == notices;
    }
  }

  lemma {:induction false} HandleAddDelta(v: View, h: Hub, c: Id, p: Packet, d: Id)
    requires d in h.open && v.id !in h.garbage && p.id == CLIENT_REGISTER && c != d && v.id != c
    ensures var w := HandleAll(v, Delta(h, c, p, d)); w.id == v.id && w.roster == WithoutEach(v.roster, h.garbage) + [c]
  {
    HandleRemovals(v, h.garbage);
    HandleOne(v, IdPackets(GAME_REMOVE_CLIENT, h.garbage), IdPacket(GAME_ADD_CLIENT, c));
    IdPacketCarries(GAME_ADD_CLIENT, c);
  }

  lemma {:induction false} HandleOwnDelta(v: View, h: Hub, c: Id, p: Packet)
    requires c in h.open && v.id == 0 && 0 !in h.garbage && p.id == CLIENT_REGISTER && c != 0
    ensures var w := HandleAll(v, Delta(h, c, p, c));
            w.id == c && w.roster == WithoutEach(v.roster, h.garbage) + Drop(Living(h.clients + [c], h.open), {c})
  {
    var notices := IdPackets(GAME_REMOVE_CLIENT, h.garbage);
    HandleRemovals(v, h.garbage);
    HandleAllAppend(v, notices, Welcome(h, c, c));
    HandleWelcome(HandleAll(v, notices), h, c);
  }

  // ---------- one server step, on the roster of one open client ----------

  /** A roster equal to the listed ids without its owner agrees with what the sweep leaves of the list. */
  lemma {:induction false} ListedIsExact(w: View, d: Id, listed: seq<Id>, open: set<Id>)
    requires w.id == d && w.roster == Drop(listed, {d}) && NoDup(listed)
    ensures Exact(w, d, Living(listed, open), Closed(listed, open))
  {
    var gone := Closed(listed, open);
    DropNoDup(listed, {d});
    DropTwice(listed, {d}, gone);
    DropTwice(listed, gone, {d});
    assert {d} + gone == gone + {d};
  }

  lemma {:induction false} ExactSurvives(v: View, w: View, d: Id, clients: seq<Id>, garbage: seq<Id>, more: seq<Id>,
                                         open: set<Id>)
    requires Exact(v, d, clients, Elems(garbage)) && NoDup(clients + more) && d !in more
    requires w.id == d && w.roster == WithoutEach(v.roster, garbage) + more
    ensures Exact(w, d, Living(clients + more, open), Closed(clients + more, open))
  {
    WithoutEachDrops(v.roster, garbage);
    DropAppend(clients, more, {d});
    DropNothing(more, {d});
    ListedIsExact(w, d, clients + more, open);
  }

  lemma {:induction false} WaitingSurvives(v: View, w: View, clients: seq<Id>, garbage: seq<Id>, more: seq<Id>,
                                           open: set<Id>)
    requires Waiting(v, clients, Elems(garbage)) && NoDup(more)
    requires forall x :: x in more ==> x !in clients && x !in garbage
    requires w.id == 0 && w.roster == WithoutEach(v.roster, garbage) + more
    ensures Waiting(w, Living(clients + more, open), Closed(clients + more, open))
  {
    WithoutEachDrops(v.roster, garbage);
    NoDupConcat(WithoutEach(v.roster, garbage), more);
  }

  lemma {:induction false} ClosedRosterIsGone(roster: seq<Id>, clients: seq<Id>, garbage: seq<Id>, d: Id, open: set<Id>)
    requires NoDup(roster) && forall x :: x in roster ==> x !in open && (x in clients || x in garbage)
    ensures forall x :: x in WithoutEach(roster, garbage) ==> x in Closed(clients + [d], open)
    ensures NoDup(WithoutEach(roster, garbage))
  {
    WithoutEachDrops(roster, garbage);
    forall x | x in WithoutEach(roster, garbage)
      ensures x in Closed(clients + [d], open)
    {
      assert x in clients;
      assert x in clients + [d];
    }
  }

  /** Entries on the way out do not count, so the introductions alone make the roster exact. */
  lemma GoneThenLivingIsExact(w: View, d: Id, leaving: seq<Id>, listed: seq<Id>, open: set<Id>)
    requires NoDup(leaving) && NoDup(listed) && forall x :: x in leaving ==> x in Closed(listed, open)
    requires w.id == d && w.roster == leaving + Drop(Living(listed, open), {d})
    ensures Exact(w, d, Living(listed, open), Closed(listed, open))
  {
    var gone := Closed(listed, open);
    var added := Drop(Living(listed, open), {d});
    DropNoDup(listed, gone);
    DropNoDup(Living(listed, open), {d});
    NoDupConcat(leaving, added);
    DropAppend(leaving, added, gone);
    DropAll(leaving, gone);
    DropNothing(added, gone);
  }

  lemma {:induction false} RegisteredExactly(v: View, w: View, d: Id, clients: seq<Id>, garbage: seq<Id>, open: set<Id>)
    requires Waiting(v, clients, Elems(garbage)) && NoDup(clients + [d])
    requires forall x :: x in v.roster ==> x !in open
    requires w.id == d && w.roster == WithoutEach(v.roster, garbage) + Drop(Living(clients + [d], open), {d})
    ensures Exact(w, d, Living(clients + [d], open), Closed(clients + [d], open))
  {
    ClosedRosterIsGone(v.roster, clients, garbage, d, open);
    GoneThenLivingIsExact(w, d, WithoutEach(v.roster, garbage), clients + [d], open);
  }

  lemma {:induction false} DropAll(s: seq<Id>, gone: set<Id>)
    requires forall x :: x in s ==> x in gone
    ensures Drop(s, gone) == []
  {
    if s != [] {
      DropAll(s[..|s| - 1], gone);
    }
  }

  lemma {:induction false} RegisteredHaunted(v: View, w: View, d: Id, clients: seq<Id>, garbage: seq<Id>,
                                             open: set<Id>, x: Id)
    requires Waiting(v, clients, Elems(garbage)) && d !in clients && d !in garbage
    requires x in v.roster && x in open && forall y :: y in garbage ==> y !in open
    requires w.id == d && w.roster == WithoutEach(v.roster, garbage) + Drop(Living(clients + [d], open), {d})
    ensures Haunted(w, d, Living(clients + [d], open), Closed(clients + [d], open))
  {
    var kept, added := WithoutEach(v.roster, garbage), Drop(Living(clients + [d], open), {d});
    WithoutEachDrops(v.roster, garbage);
    assert x in clients && x != d;
    assert x in clients + [d];
    assert x in kept && x in added;
    assert multiset(kept + added) == multiset(kept) + multiset(added);
    assert Ghostly(w.roster, Living(clients + [d], open), Closed(clients + [d], open), x);
  }

  lemma InMultiset(ids: seq<Id>, x: Id)
    ensures x in ids <==> multiset(ids)[x] > 0
  {
  }

  lemma {:induction false} HauntedSurvives(v: View, w: View, d: Id, clients: seq<Id>, garbage: seq<Id>,
                                           more: seq<Id>, open: set<Id>)
    requires Haunted(v, d, clients, Elems(garbage)) && NoDup(garbage)
    requires forall x :: x in more ==> x !in v.roster
    requires forall x :: x in garbage ==> x !in clients && x !in more
    requires w.id == d && w.roster == WithoutEach(v.roster, garbage) + more
    ensures Haunted(w, d, Living(clients + more, open), Closed(clients + more, open))
  {
    var x :| Ghostly(v.roster, clients, Elems(garbage), x);
    var kept := WithoutEach(v.roster, garbage);
    WithoutEachCounts(v.roster, garbage);
    NoDupCounts(garbage, x);
    assert multiset(kept + more) == multiset(kept) + multiset(more);
    InMultiset(v.roster, x);
    InMultiset(kept, x);
    assert x in kept + more;
    assert Ghostly(w.roster, Living(clients + more, open), Closed(clients + more, open), x);
  }

  // ---------- preservation ----------

  lemma SettledIsHonest(s: Sys, d: Id)
    requires Traffic(s) && d in s.peers && d in s.hub.down
    ensures Settled(s, d).id == 0 || Settled(s, d).id == d
    ensures Settled(s, d).id == d ==> Enrolled(s, d) >= 1
  {
    assert TrafficOk(s, d);
    ViewHonest(d, s.hub.down[d]);
    if Settled(s, d).id == d {
      AssignedIsEnrolled(s, d);
    }
  }

  /** An id on a roster has been announced, hence enrolled. */
  lemma {:induction false} RosterWasAdded(ps: seq<Packet>, x: Id)
    requires x in HandleAll(NEWBORN, ps).roster
    ensures exists p :: p in ps && p.id == GAME_ADD_CLIENT && Subject(p) == x
  {
    if ps != [] {
      var rest, p := ps[..|ps| - 1], ps[|ps| - 1];
      var v := HandleAll(NEWBORN, rest);
      if x in v.roster {
        RosterWasAdded(rest, x);
      } else if 4 <= |p.body| && p.id == GAME_REMOVE_CLIENT && PopWord(p) != v.id {
        RemoveFirstMembers(v.roster, PopWord(p));
      }
    }
  }

  lemma {:induction false} RemoveFirstMembers(s: seq<Id>, x: Id)
    ensures forall y :: y in RemoveFirst(s, x) ==> y in s
  {
    if s != [] && s[0] != x {
      RemoveFirstMembers(s[1..], x);
    }
  }

  lemma RosterIsEnrolled(s: Sys, d: Id, x: Id)
    requires Traffic(s) && d in s.peers && d in s.hub.down && x in Settled(s, d).roster
    ensures Enrolled(s, x) >= 1
  {
    assert TrafficOk(s, d);
    RosterWasAdded(s.hub.down[d], x);
  }

  /** What the current entry is. */
  lemma EntryWalks(s: Sys)
    requires s.done < |s.inLog| && Enabled(s, Process) && Traffic(s)
    ensures var e := s.inLog[s.done]; e.from in s.peers && FIRST_ID <= e.from && Walks(e.packet)
  {
    var e := s.inLog[s.done];
    assert e in s.inLog && InWire(e, Enrolled(s, e.from) >= 1);
  }

  lemma SettledProcess(s: Sys, d: Id)
    requires Tokens(s) && Enabled(s, Process) && d in s.hub.down
    ensures var t := Next(s, Process); var e := s.inLog[s.done];
            d in t.hub.down && Settled(t, d) == HandleAll(Settled(s, d), Delta(s.hub, e.from, e.packet, d))
  {
    var e := s.inLog[s.done];
    ProcessDelta(s, d);
    HandleAllAppend(NEWBORN, s.hub.down[d], Delta(s.hub, e.from, e.packet, d));
  }

  lemma ListedNoDup(h: Hub, c: Id, p: Packet)
    requires NoDup(h.clients) && (p.id == CLIENT_REGISTER ==> c !in h.clients)
    ensures NoDup(Listed(h, c, p))
  {
    if p.id == CLIENT_REGISTER {
      NoDupConcat(h.clients, [c]);
    }
  }

  /** The ids listed while the entry is handled are distinct. */
  lemma ListsNoneTwice(s: Sys, e: Entry)
    requires s.done < |s.inLog| && e == s.inLog[s.done] && Tokens(s) && Enabled(s, Process)
    ensures NoDup(Listed(s.hub, e.from, e.packet))
  {
    if e.packet.id == CLIENT_REGISTER {
      RegisterIsFirst(s);
    }
    ListedNoDup(s.hub, e.from, e.packet);
  }

  lemma ProcessVectors(s: Sys, e: Entry)
    requires s.done < |s.inLog| && e == s.inLog[s.done] && Traffic(s) && Enabled(s, Process)
    ensures var t := Next(s, Process);
            var listed := Listed(s.hub, e.from, e.packet);
            && t.hub.open == s.hub.open && NoDup(listed)
            && t.hub.clients == Living(listed, s.hub.open) && Elems(t.hub.garbage) == Closed(listed, s.hub.open)
  {
    EntryWalks(s);
    ProcessEffect(s);
    ListsNoneTwice(s, e);
  }

  /** Process as the roster lemmas speak of it: `t` is `s` after its next entry `e`. */
  ghost predicate Processed(s: Sys, t: Sys, d: Id, e: Entry) {
    && d in s.peers && d in s.hub.down && d in t.peers && d in t.hub.down
    && var listed := Listed(s.hub, e.from, e.packet);
       && t.hub.open == s.hub.open && NoDup(listed)
       && t.hub.clients == Living(listed, s.hub.open) && Elems(t.hub.garbage) == Closed(listed, s.hub.open)
       && Settled(t, d) == HandleAll(Settled(s, d), Delta(s.hub, e.from, e.packet, d))
  }

  lemma ProcessIsProcessed(s: Sys, d: Id)
    requires Traffic(s) && Enabled(s, Process) && d in s.peers
    ensures Processed(s, Next(s, Process), d, s.inLog[s.done])
    ensures Next(s, Process).peers[d].spoiled == (s.peers[d].spoiled || Spoils(s, d))
  {
    ProcessVectors(s, s.inLog[s.done]);
    SettledProcess(s, d);
  }

  /** The steps that do not register `d` itself: `more` is what they append to its roster. */
  lemma BystanderKeeps(s: Sys, t: Sys, d: Id, more: seq<Id>)
    requires Base(s) && d in s.hub.open && d in s.peers && RosterOk(s, d)
    requires d in t.peers && d in t.hub.down && d in t.hub.open && t.peers[d].spoiled == s.peers[d].spoiled
    requires d !in more && NoDup(s.hub.clients + more) && NoDup(more)
    requires forall x :: x in more ==> x !in s.hub.clients && x !in s.hub.garbage && x !in Settled(s, d).roster
    requires t.hub.clients == Living(s.hub.clients + more, s.hub.open)
    requires Elems(t.hub.garbage) == Closed(s.hub.clients + more, s.hub.open)
    requires Settled(t, d).id == Settled(s, d).id
    requires Settled(t, d).roster == WithoutEach(Settled(s, d).roster, s.hub.garbage) + more
    ensures RosterOk(t, d)
  {
    var v, w := Settled(s, d), Settled(t, d);
    var h := s.hub;
    assert d in t.hub.clients <==> d in h.clients by {
      LivingMembers(h.clients + more, h.open, d);
    }
    if d !in h.clients {
      WaitingSurvives(v, w, h.clients, h.garbage, more, h.open);
    } else if s.peers[d].spoiled {
      HauntedSurvives(v, w, d, h.clients, h.garbage, more, h.open);
    } else {
      ExactSurvives(v, w, d, h.clients, h.garbage, more, h.open);
    }
  }

  lemma RosterRelay(s: Sys, t: Sys, d: Id, e: Entry)
    requires Traffic(s) && d in s.peers && d in s.hub.open && RosterOk(s, d)
    requires Processed(s, t, d, e) && t.peers[d].spoiled == s.peers[d].spoiled && IsGame(e.packet.id)
    ensures RosterOk(t, d)
  {
    SettledIsHonest(s, d);
    HandleRelayDelta(Settled(s, d), s.hub, e.from, e.packet, d);
    PlusNothing(s.hub.clients);
    PlusNothing(WithoutEach(Settled(s, d).roster, s.hub.garbage));
    BystanderKeeps(s, t, d, []);
  }

  lemma PlusNothing(ids: seq<Id>)
    ensures ids + [] == ids
  {
  }

  lemma RosterAdd(s: Sys, t: Sys, d: Id, e: Entry)
    requires Traffic(s) && d in s.peers && d in s.hub.open && RosterOk(s, d)
    requires Processed(s, t, d, e) && t.peers[d].spoiled == s.peers[d].spoiled
    requires e.packet.id == CLIENT_REGISTER && e.from != d && e.from in s.peers && Enrolled(s, e.from) == 0
    requires e.from !in s.hub.clients && e.from !in s.hub.garbage
    ensures RosterOk(t, d)
  {
    SettledIsHonest(s, d);
    HandleAddDelta(Settled(s, d), s.hub, e.from, e.packet, d);
    if e.from in Settled(s, d).roster {
      RosterIsEnrolled(s, d, e.from);
    }
    BystanderKeeps(s, t, d, [e.from]);
  }

  lemma RosterOwn(s: Sys, t: Sys, d: Id, e: Entry)
    requires Base(s) && d in s.peers && d in s.hub.open && RosterOk(s, d)
    requires Processed(s, t, d, e) && e.packet.id == CLIENT_REGISTER && e.from == d
    requires d !in s.hub.clients && d !in s.hub.garbage
    requires t.peers[d].spoiled <==> exists x :: x in Settled(s, d).roster && x in s.hub.open
    ensures d in t.hub.clients && RosterOk(t, d)
  {
    var h := s.hub;
    var v, w := Settled(s, d), Settled(t, d);
    assert 0 !in h.garbage && d != 0;
    HandleOwnDelta(v, h, d, e.packet);
    LivingMembers(h.clients + [d], h.open, d);
    assert (h.clients + [d])[|h.clients|] == d;
    if x :| x in v.roster && x in h.open {
      RegisteredHaunted(v, w, d, h.clients, h.garbage, h.open, x);
    } else {
      RegisteredExactly(v, w, d, h.clients, h.garbage, h.open);
    }
  }

  lemma RosterKept(s: Sys, st: Step, d: Id)
    requires Base(s) && Enabled(s, st) && st != Process && d in s.peers && RosterOk(s, d)
    ensures var t := Next(s, st); d in t.peers && d in t.hub.down && RosterOk(t, d)
  {
    HubKept(s, st, d);
    if st == Validate(d) {
      HandleOne(NEWBORN, s.hub.down[d], NewPacket(CLIENT_ACCEPTED));
    }
    SpoiledKept(s, st, d);
  }

  lemma SpoiledKept(s: Sys, st: Step, d: Id)
    requires Base(s) && Enabled(s, st) && st != Process && d in s.peers
    ensures d in Next(s, st).peers && Next(s, st).peers[d].spoiled == s.peers[d].spoiled
  {
  }

  lemma RosterNewborn(s: Sys)
    requires Base(s) && Enabled(s, Accept)
    ensures RosterOk(Next(s, Accept), s.next)
  {
    assert s.next !in s.hub.clients;
  }

  lemma RosterStepAt(s: Sys, st: Step, d: Id)
    requires Rosters(s) && Enabled(s, st) && d in s.peers
    ensures var t := Next(s, st); d in t.peers && d in t.hub.down && RosterOk(t, d)
  {
    assert RosterOk(s, d);
    if st != Process {
      RosterKept(s, st, d);
    } else if d !in s.hub.open {
      ProcessVectors(s, s.inLog[s.done]);
      ProcessEffect(s);
    } else {
      RosterProcess(s, Next(s, Process), d);
    }
  }

  /** All three kinds of entry, for the state `t` after it. */
  lemma RosterProcessed(s: Sys, t: Sys, d: Id, e: Entry)
    requires Traffic(s) && d in s.peers && d in s.hub.open && RosterOk(s, d)
    requires Processed(s, t, d, e) && Walks(e.packet)
    requires t.peers[d].spoiled <==>
               || s.peers[d].spoiled
               || (e.packet.id == CLIENT_REGISTER && d == e.from
                   && exists x :: x in Settled(s, d).roster && x in s.hub.open)
    requires e.packet.id == CLIENT_REGISTER ==>
               e.from in s.peers && Enrolled(s, e.from) == 0 && e.from !in s.hub.clients && e.from !in s.hub.garbage
    ensures RosterOk(t, d)
  {
    if IsGame(e.packet.id) {
      RosterRelay(s, t, d, e);
    } else if e.from != d {
      RosterAdd(s, t, d, e);
    } else {
      RosterOwn(s, t, d, e);
    }
  }

  lemma RosterProcess(s: Sys, t: Sys, d: Id)
    requires Traffic(s) && Enabled(s, Process) && d in s.peers && d in s.hub.open && RosterOk(s, d)
             && t == Next(s, Process)
    ensures d in t.peers && d in t.hub.down && RosterOk(t, d)
  {
    var e := s.inLog[s.done];
    EntryWalks(s);
    ProcessIsProcessed(s, d);
    if e.packet.id == CLIENT_REGISTER {
      RegisterIsFirst(s);
    }
    RosterProcessed(s, t, d, e);
  }

  lemma RostersStep(s: Sys, st: Step)
    requires Rosters(s) && Enabled(s, st)
    ensures Rosters(Next(s, st))
  {
    CausalityStep(s, st);
    forall d | d in Next(s, st).peers
      ensures RosterOk(Next(s, st), d)
    {
      if d in s.peers {
        RosterStepAt(s, st, d);
      } else {
        RosterNewborn(s);
      }
    }
  }
}
